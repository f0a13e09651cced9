/** Approval requests: who may settle one, and that each is settled at most once however calls interleave. */
module Approvals {
  import opened Wrappers
  import opened Text

  datatype Policy = Unset | Auto | Peer | PlatformAdmin | OtherPolicy(name: string)

  datatype State = Pending | Approved | Rejected | Cancelled | Expired

  /** A request with an action is a lifecycle request, or an action on an instance. */
  datatype Request = Request(org: string, item: string, action: string, requester: string, state: State, expires: Option<int>)

  /** What allowed the approver to decide. */
  datatype Basis = ByAction | ByPolicy(policy: Policy)

  datatype Settlement =
    | Decided(approve: bool, approver: string, basis: Basis, checked: nat)
    | CancelledBy(actor: string)
    | RanOut

  datatype Event = Event(id: nat, settlement: Settlement)

  datatype Refusal = NotFound | AlreadyDecided | SelfApproval | ApproverRole | NotRequester | UnknownItem

  /** A call between its read and its compare-and-set. */
  datatype Call =
    | Deciding(id: nat, approve: bool, approver: string, basis: Basis, checked: nat)
    | Cancelling(id: nat, actor: string)
    | Sweeping(left: seq<nat>)

  /** What the check of a decision looks at: the items' policies, who holds the platform-operations
      permission in an organization, and who is a platform creator. */
  datatype Settings = Settings(policies: map<string, Policy>, operators: set<(string, string)>, creators: set<string>)

  /** `settings` are those of all times, the last being in force; a decision remembers which it was checked
      against. */
  datatype World = World(requests: seq<Request>, events: seq<Event>, settings: seq<Settings>, calls: map<nat, Call>, now: int)

  function InForce(w: World): Settings {
    if w.settings == [] then Settings(map[], {}, {}) else w.settings[|w.settings| - 1]
  }

  function PolicyFor(policy: Policy): Policy {
    if policy.Unset? then Auto else policy
  }

  predicate SameActor(a: string, b: string) {
    TrimPrefix(a, "user:") == TrimPrefix(b, "user:")
  }

  /** Two spellings name the same actor exactly if they are equal or differ by one "user:" in front. */
  lemma SameActorExactly(a: string, b: string)
    ensures SameActor(a, b) <==>
            a == b || (a == "user:" + b && !HasPrefix(b, "user:")) || (b == "user:" + a && !HasPrefix(a, "user:"))
  {
    var m := "user:";
    assert HasPrefix(a, m) ==> a == m + TrimPrefix(a, m);
    assert HasPrefix(b, m) ==> b == m + TrimPrefix(b, m);
    assert HasPrefix(m + b, m) && (m + b)[|m|..] == b;
    assert HasPrefix(m + a, m) && (m + a)[|m|..] == a;
  }

  /** Whether the approver may decide, and on what basis; the item's policy is the one of this moment. */
  function MayDecide(at: Settings, req: Request, approver: string): Result<Basis, Refusal> {
    if req.action != "" then
      if SameActor(req.requester, approver) then Err(SelfApproval)
      else if approver in at.creators || (req.org, approver) in at.operators then Ok(ByAction)
      else Err(ApproverRole)
    else if req.item !in at.policies then Err(UnknownItem)
    else
      match PolicyFor(at.policies[req.item])
      case Peer => if SameActor(req.requester, approver) then Err(SelfApproval) else Ok(ByPolicy(Peer))
      case PlatformAdmin => if (req.org, approver) in at.operators then Ok(ByPolicy(PlatformAdmin)) else Err(ApproverRole)
      case other => Ok(ByPolicy(other))
  }

  function ReadPending(w: World, org: string, id: nat): Result<Request, Refusal> {
    if id >= |w.requests| || w.requests[id].org != org then Err(NotFound)
    else if !w.requests[id].state.Pending? then Err(AlreadyDecided)
    else Ok(w.requests[id])
  }

  function DecideCheck(w: World, org: string, id: nat, approver: string): Result<Basis, Refusal> {
    match ReadPending(w, org, id)
    case Err(e) => Err(e)
    case Ok(req) => MayDecide(InForce(w), req, approver)
  }

  function CancelCheck(w: World, org: string, id: nat, actor: string): Option<Refusal> {
    match ReadPending(w, org, id)
    case Err(e) => Some(e)
    case Ok(req) => if SameActor(req.requester, actor) then None else Some(NotRequester)
  }

  predicate Overdue(w: World, id: nat)
    requires id < |w.requests|
  {
    w.requests[id].state.Pending? && w.requests[id].expires.Some? && w.requests[id].expires.value <= w.now
  }

  function OverdueFrom(w: World, from: nat): seq<nat>
    requires from <= |w.requests|
    decreases |w.requests| - from
  {
    if from == |w.requests| then []
    else (if Overdue(w, from) then [from] else []) + OverdueFrom(w, from + 1)
  }

  lemma {:induction false} OverdueAreListed(w: World, from: nat)
    requires from <= |w.requests|
    ensures forall id :: id in OverdueFrom(w, from) <==> from <= id < |w.requests| && Overdue(w, id)
    decreases |w.requests| - from
  {
    if from < |w.requests| {
      OverdueAreListed(w, from + 1);
    }
  }

  function StateAfter(s: Settlement): State {
    match s
    case Decided(approve, _, _, _) => if approve then Approved else Rejected
    case CancelledBy(_) => Cancelled
    case RanOut => Expired
  }

  /** The guarded update: it settles a pending request and appends its event, and does nothing else. */
  function Settle(w: World, id: nat, s: Settlement): World {
    if id < |w.requests| && w.requests[id].state.Pending?
    then w.(requests := w.requests[id := w.requests[id].(state := StateAfter(s))], events := w.events + [Event(id, s)])
    else w
  }

  function ExpireAll(w: World, ids: seq<nat>): World
    decreases |ids|
  {
    if ids == [] then w else ExpireAll(Settle(w, ids[0], RanOut), ids[1..])
  }

  datatype Step =
    | Ask(request: Request)
    | BeginDecide(call: nat, org: string, id: nat, approver: string, approve: bool)
    | BeginCancel(call: nat, org: string, id: nat, actor: string)
    | BeginSweep(call: nat)
    | Finish(call: nat)
    | Abandon(call: nat)
    | SetPolicies(policies: map<string, Policy>)
    | SetRoles(operators: set<(string, string)>, creators: set<string>)
    | Tick(seconds: nat)

  function TakeFinish(w: World, call: nat): World {
    if call !in w.calls then w
    else
      match w.calls[call]
      case Deciding(id, approve, approver, basis, checked) =>
        Settle(w.(calls := w.calls - {call}), id, Decided(approve, approver, basis, checked))
      case Cancelling(id, actor) => Settle(w.(calls := w.calls - {call}), id, CancelledBy(actor))
      case Sweeping(left) =>
        if left == [] then w.(calls := w.calls - {call})
        else Settle(w.(calls := w.calls[call := Sweeping(left[1..])]), left[0], RanOut)
  }

  function Take(w: World, step: Step): World {
    match step
    case Ask(r) => w.(requests := w.requests + [r.(state := Pending)])
    case BeginDecide(call, org, id, approver, approve) =>
      if call in w.calls || DecideCheck(w, org, id, approver).Err? then w
      else w.(calls := w.calls[call := Deciding(id, approve, approver, DecideCheck(w, org, id, approver).value,
                                                 if w.settings == [] then 0 else |w.settings| - 1)])
    case BeginCancel(call, org, id, actor) =>
      if call in w.calls || CancelCheck(w, org, id, actor).Some? then w
      else w.(calls := w.calls[call := Cancelling(id, actor)])
    case BeginSweep(call) => if call in w.calls then w else w.(calls := w.calls[call := Sweeping(OverdueFrom(w, 0))])
    case Finish(call) => TakeFinish(w, call)
    case Abandon(call) => w.(calls := w.calls - {call})
    case SetPolicies(policies) => w.(settings := w.settings + [InForce(w).(policies := policies)])
    case SetRoles(operators, creators) => w.(settings := w.settings + [InForce(w).(operators := operators, creators := creators)])
    case Tick(seconds) => w.(now := w.now + seconds)
  }

  function Run(w: World, steps: seq<Step>): World
    decreases |steps|
  {
    if steps == [] then w else Run(Take(w, steps[0]), steps[1..])
  }

  /** The service: each operation reads, checks, and then updates with a guard on the state. */
  class Service {
    var requests: seq<Request>
    var events: seq<Event>
    var policies: map<string, Policy>
    var operators: set<(string, string)>
    var creators: set<string>
    var now: int
    const ttl: nat
    var revision: nat
    ghost var before: seq<Settings>

    /** `revision` counts the changes of policies and roles so far. */
    ghost predicate Valid()
      reads this
    {
      revision == |before|
    }

    ghost function Snapshot(): World
      reads this
    {
      World(requests, events, before + [Settings(policies, operators, creators)], map[], now)
    }

    constructor (ttl: nat)
      ensures Valid() && requests == [] && events == [] && this.ttl == ttl
    {
      requests, events, policies, operators, creators, now := [], [], map[], {}, {}, 0;
      this.ttl := ttl;
      revision, before := 0, [];
    }

    /** Under the auto policy nothing waits; otherwise a request is filed. */
    method Gate(org: string, item: string, policy: Policy, action: string, requester: string) returns (approved: bool, id: nat)
      modifies this`requests
      ensures approved <==> policy.Auto? || policy.Unset?
      ensures approved ==> requests == old(requests)
      ensures !approved ==>
                id == old(|requests|) && requests == old(requests) + [Request(org, item, action, requester, Pending, Some(now + ttl))]
    {
      id := |requests|;
      approved := PolicyFor(policy).Auto?;
      if !approved {
        requests := requests + [Request(org, item, action, requester, Pending, Some(now + ttl))];
      }
    }

    method UpdateIfPending(id: nat, s: Settlement) returns (updated: bool)
      modifies this`requests, this`events
      ensures updated <==> id < old(|requests|) && old(requests)[id].state.Pending?
      ensures Snapshot() == Settle(old(Snapshot()), id, s)
    {
      updated := id < |requests| && requests[id].state.Pending?;
      if updated {
        requests := requests[id := requests[id].(state := StateAfter(s))];
        events := events + [Event(id, s)];
      }
    }

    method Authorize(req: Request, approver: string) returns (basis: Result<Basis, Refusal>)
      ensures basis == MayDecide(Settings(policies, operators, creators), req, approver)
    {
      if req.action != "" {
        if SameActor(req.requester, approver) {
          return Err(SelfApproval);
        }
        if approver in creators {
          return Ok(ByAction);
        }
        return if (req.org, approver) in operators then Ok(ByAction) else Err(ApproverRole);
      }
      var platformOps := (req.org, approver) in operators;
      if req.item !in policies {
        return Err(UnknownItem);
      }
      var policy := PolicyFor(policies[req.item]);
      match policy {
        case Peer =>
          if SameActor(req.requester, approver) {
            return Err(SelfApproval);
          }
        case PlatformAdmin =>
          if !platformOps {
            return Err(ApproverRole);
          }
        case _ =>
      }
      return Ok(ByPolicy(policy));
    }

    method Decide(org: string, id: nat, approver: string, approve: bool) returns (refusal: Option<Refusal>)
      requires Valid()
      modifies this`requests, this`events
      ensures Snapshot() == Take(Take(old(Snapshot()), BeginDecide(0, org, id, approver, approve)), Finish(0))
      ensures refusal == match DecideCheck(old(Snapshot()), org, id, approver) case Ok(_) => None case Err(e) => Some(e)
      ensures refusal.None? ==> requests[id].state == if approve then Approved else Rejected
    {
      if id >= |requests| || requests[id].org != org {
        return Some(NotFound);
      }
      var req := requests[id];
      if !req.state.Pending? {
        return Some(AlreadyDecided);
      }
      var basis := Authorize(req, approver);
      if basis.Err? {
        return Some(basis.error);
      }
      ghost var w := Snapshot();
      var updated := UpdateIfPending(id, Decided(approve, approver, basis.value, revision));
      assert w.calls[0 := Deciding(id, approve, approver, basis.value, revision)] - {0} == map[];
      return if updated then None else Some(AlreadyDecided);
    }

    method Cancel(org: string, id: nat, actor: string) returns (refusal: Option<Refusal>)
      modifies this`requests, this`events
      ensures Snapshot() == Take(Take(old(Snapshot()), BeginCancel(0, org, id, actor)), Finish(0))
      ensures refusal == CancelCheck(old(Snapshot()), org, id, actor)
      ensures refusal.None? ==> requests[id].state == Cancelled
    {
      if id >= |requests| || requests[id].org != org {
        return Some(NotFound);
      }
      if !requests[id].state.Pending? {
        return Some(AlreadyDecided);
      }
      if !SameActor(requests[id].requester, actor) {
        return Some(NotRequester);
      }
      ghost var w := Snapshot();
      var updated := UpdateIfPending(id, CancelledBy(actor));
      assert w.calls[0 := Cancelling(id, actor)] - {0} == map[];
      return if updated then None else Some(AlreadyDecided);
    }

    method ListExpired() returns (due: seq<nat>)
      ensures due == OverdueFrom(Snapshot(), 0)
    {
      due := [];
      for id := 0 to |requests|
        invariant OverdueFrom(Snapshot(), 0) == due + OverdueFrom(Snapshot(), id)
      {
        if requests[id].state.Pending? && requests[id].expires.Some? && requests[id].expires.value <= now {
          due := due + [id];
        }
      }
    }

    method ExpireSweep() returns (expired: nat)
      modifies this`requests, this`events
      ensures Snapshot() == ExpireAll(old(Snapshot()), OverdueFrom(old(Snapshot()), 0))
      ensures expired == |OverdueFrom(old(Snapshot()), 0)|
      ensures |requests| == old(|requests|) && forall id | 0 <= id < |requests| :: !Overdue(Snapshot(), id)
      ensures forall id | 0 <= id < |requests| ::
                var req := old(requests)[id];
                requests[id] == if req.state == Pending && req.expires.Some? && req.expires.value <= now then req.(state := Expired) else req
    {
      ghost var w := Snapshot();
      var due := ListExpired();
      for i := 0 to |due|
        invariant ExpireAll(Snapshot(), due[i..]) == ExpireAll(w, due)
      {
        assert due[i..][1..] == due[i + 1..];
        var updated := UpdateIfPending(due[i], RanOut);
      }
      OverdueAreListed(w, 0);
      ExpireAllSettles(w, due);
      return |due|;
    }
  }

  /** Expiring a list settles those of it that are still pending, and nothing else. */
  lemma {:induction false} ExpireAllSettles(w: World, ids: seq<nat>)
    ensures var v := ExpireAll(w, ids);
            && v.now == w.now && |v.requests| == |w.requests|
            && forall id | 0 <= id < |w.requests| ::
                 v.requests[id] == if id in ids && w.requests[id].state.Pending? then w.requests[id].(state := Expired) else w.requests[id]
    decreases |ids|
  {
    if ids != [] {
      ExpireAllSettles(Settle(w, ids[0], RanOut), ids[1..]);
    }
  }

  // ----- Settled once

  /** The settlements of one request, in order. */
  function SettlementsOf(events: seq<Event>, id: nat): seq<Settlement> {
    if events == [] then []
    else
      var last := events[|events| - 1];
      SettlementsOf(events[..|events| - 1], id) + (if last.id == id then [last.settlement] else [])
  }

  /** Why a decision was allowed, by the policies and roles it was checked against: on a request with an
      action, or under the peer policy, it was not the requester's own; on a request with an action it was
      made by someone who was an operator or a creator, under the platform-admin policy by an operator. */
  predicate DecisionJustified(at: Settings, req: Request, approver: string, basis: Basis) {
    match basis
    case ByAction =>
      req.action != "" && !SameActor(req.requester, approver)
      && (approver in at.creators || (req.org, approver) in at.operators)
    case ByPolicy(policy) =>
      && req.action == "" && req.item in at.policies && policy == PolicyFor(at.policies[req.item])
      && (policy.Peer? ==> !SameActor(req.requester, approver))
      && (policy.PlatformAdmin? ==> (req.org, approver) in at.operators)
  }

  /** Why a settlement was allowed. */
  predicate Justified(w: World, req: Request, s: Settlement) {
    match s
    case Decided(_, approver, basis, checked) =>
      checked < |w.settings| && DecisionJustified(w.settings[checked], req, approver, basis)
    case CancelledBy(actor) => SameActor(req.requester, actor)
    case RanOut => req.expires.Some? && req.expires.value <= w.now
  }

  predicate SettledOnce(w: World, id: nat)
    requires id < |w.requests|
  {
    var req := w.requests[id];
    var all := SettlementsOf(w.events, id);
    if req.state.Pending? then all == []
    else |all| == 1 && StateAfter(all[0]) == req.state && Justified(w, req, all[0])
  }

  predicate CallOk(w: World, c: Call) {
    match c
    case Deciding(id, approve, approver, basis, checked) =>
      id < |w.requests| && Justified(w, w.requests[id], Decided(approve, approver, basis, checked))
    case Cancelling(id, actor) => id < |w.requests| && Justified(w, w.requests[id], CancelledBy(actor))
    case Sweeping(left) => forall id | id in left :: id < |w.requests| && Justified(w, w.requests[id], RanOut)
  }

  predicate Inv(w: World) {
    && w.settings != []
    && (forall id | 0 <= id < |w.requests| :: SettledOnce(w, id))
    && (forall e | e in w.events :: e.id < |w.requests|)
    && (forall c | c in w.calls :: CallOk(w, w.calls[c]))
  }

  lemma {:induction false} NoEventsNoSettlements(events: seq<Event>, id: nat)
    requires forall e | e in events :: e.id != id
    ensures SettlementsOf(events, id) == []
  {
    if events != [] {
      assert events[|events| - 1] in events;
      NoEventsNoSettlements(events[..|events| - 1], id);
    }
  }

  lemma SettleKeeps(w: World, id: nat, s: Settlement)
    requires Inv(w) && id < |w.requests| && Justified(w, w.requests[id], s)
    ensures Inv(Settle(w, id, s))
  {
    var v := Settle(w, id, s);
    if w.requests[id].state.Pending? {
      assert v.events[..|v.events| - 1] == w.events;
      forall other | 0 <= other < |v.requests| ensures SettledOnce(v, other) {
        assert SettledOnce(w, other);
      }
      forall c | c in v.calls ensures CallOk(v, v.calls[c]) {
        assert CallOk(w, w.calls[c]);
      }
    }
  }

  lemma AskKeeps(w: World, r: Request)
    requires Inv(w)
    ensures Inv(Take(w, Ask(r)))
  {
    var v := Take(w, Ask(r));
    forall id | 0 <= id < |v.requests| ensures SettledOnce(v, id) {
      if id < |w.requests| {
        assert SettledOnce(w, id);
      } else {
        NoEventsNoSettlements(w.events, id);
      }
    }
    forall c | c in v.calls ensures CallOk(v, v.calls[c]) {
      assert CallOk(w, w.calls[c]);
    }
  }

  /** Which calls are in progress is no matter to what has been settled. */
  lemma WithCalls(w: World, calls: map<nat, Call>)
    requires Inv(w) && forall c | c in calls :: CallOk(w, calls[c])
    ensures Inv(w.(calls := calls))
  {
    hide SettlementsOf, DecisionJustified, SameActor;
    var u := w.(calls := calls);
    forall id | 0 <= id < |u.requests| ensures SettledOnce(u, id) {
      assert SettledOnce(w, id);
    }
    forall c | c in u.calls ensures CallOk(u, u.calls[c]) {
      assert CallOk(w, calls[c]);
    }
  }

  lemma BeginKeeps(w: World, step: Step)
    requires Inv(w) && (step.BeginDecide? || step.BeginCancel? || step.BeginSweep?)
    ensures Inv(Take(w, step))
  {
    var v := Take(w, step);
    if step.BeginSweep? {
      OverdueAreListed(w, 0);
    }
    forall c | c in v.calls ensures CallOk(w, v.calls[c]) {
      if c in w.calls {
        assert CallOk(w, w.calls[c]);
      }
    }
    WithCalls(w, v.calls);
    hide SettledOnce, CallOk;
  }

  lemma FinishKeeps(w: World, call: nat)
    requires Inv(w)
    ensures Inv(TakeFinish(w, call))
  {
    if call in w.calls {
      var c := w.calls[call];
      assert CallOk(w, c);
      var calls := if c.Sweeping? && c.left != [] then w.calls[call := Sweeping(c.left[1..])] else w.calls - {call};
      forall other | other in calls ensures CallOk(w, calls[other]) {
        if other == call {
          assert forall id | id in c.left[1..] :: id in c.left;
        } else {
          assert CallOk(w, w.calls[other]);
        }
      }
      WithCalls(w, calls);
      hide Inv;
      var u := w.(calls := calls);
      match c
      case Deciding(id, approve, approver, basis, checked) => SettleKeeps(u, id, Decided(approve, approver, basis, checked));
      case Cancelling(id, actor) => SettleKeeps(u, id, CancelledBy(actor));
      case Sweeping(left) =>
        if left != [] {
          assert left[0] in left;
          SettleKeeps(u, left[0], RanOut);
        }
    }
  }

  lemma OutsideKeeps(w: World, step: Step)
    requires Inv(w) && (step.Abandon? || step.SetPolicies? || step.SetRoles? || step.Tick?)
    ensures Inv(Take(w, step))
  {
    var v := Take(w, step);
    forall id | 0 <= id < |v.requests| ensures SettledOnce(v, id) {
      assert SettledOnce(w, id);
    }
    forall c | c in v.calls ensures CallOk(v, v.calls[c]) {
      assert CallOk(w, w.calls[c]);
    }
  }

  lemma {:induction false} RunKeeps(w: World, steps: seq<Step>)
    requires Inv(w)
    ensures Inv(Run(w, steps))
    decreases |steps|
  {
    if steps != [] {
      match steps[0] {
        case Ask(r) => AskKeeps(w, r);
        case BeginDecide(_, _, _, _, _) => BeginKeeps(w, steps[0]);
        case BeginCancel(_, _, _, _) => BeginKeeps(w, steps[0]);
        case BeginSweep(_) => BeginKeeps(w, steps[0]);
        case Finish(call) => FinishKeeps(w, call);
        case _ => OutsideKeeps(w, steps[0]);
      }
      RunKeeps(Take(w, steps[0]), steps[1..]);
    }
  }

  /** However reads and updates of deciding, cancelling and expiring interleave, every request has exactly
      one settlement event if it is settled and none if it is pending, and the event says what became of it. */
  lemma EveryRequestIsSettledOnce(w: World, steps: seq<Step>, id: nat)
    requires Inv(w) && id < |Run(w, steps).requests|
    ensures var v := Run(w, steps);
            var all := SettlementsOf(v.events, id);
            && |all| == (if v.requests[id].state.Pending? then 0 else 1)
            && (all != [] ==> StateAfter(all[0]) == v.requests[id].state)
  {
    RunKeeps(w, steps);
    assert SettledOnce(Run(w, steps), id);
  }

  /** Every settlement was allowed. Nobody decides their own request, under either spelling of their name,
      when the request was checked under the peer policy or has an action; who decided a request with an
      action was an operator or a creator when it was checked, and under the platform-admin policy an
      operator; only the requester cancels; nothing expires early. */
  lemma SettlementsAreJustified(w: World, steps: seq<Step>, id: nat)
    requires Inv(w) && id < |Run(w, steps).requests| && !Run(w, steps).requests[id].state.Pending?
    ensures var v := Run(w, steps);
            |SettlementsOf(v.events, id)| == 1 && Justified(v, v.requests[id], SettlementsOf(v.events, id)[0])
  {
    RunKeeps(w, steps);
    assert SettledOnce(Run(w, steps), id);
  }

  /** A settled request stays as it was settled. */
  lemma {:induction false} SettledForGood(w: World, steps: seq<Step>, id: nat)
    requires id < |w.requests| && !w.requests[id].state.Pending?
    ensures id < |Run(w, steps).requests| && Run(w, steps).requests[id] == w.requests[id]
    decreases |steps|
  {
    if steps != [] {
      SettledForGood(Take(w, steps[0]), steps[1..], id);
    }
  }

  /** Who can settle a request that names them as its requester: anyone under a policy that is neither peer
      nor platform-admin, and an operator under platform-admin; a request with an action by nobody. */
  lemma SelfApprovalExactly(w: World, org: string, id: nat, approver: string)
    requires ReadPending(w, org, id).Ok? && SameActor(w.requests[id].requester, approver)
    ensures var req := w.requests[id];
            DecideCheck(w, org, id, approver).Ok? <==>
              var at := InForce(w);
              req.action == "" && req.item in at.policies && !at.policies[req.item].Peer?
              && (at.policies[req.item].PlatformAdmin? ==> (org, approver) in at.operators)
  {
  }

  // ----- Who is let through, and what a call then does

  /** Who may decide: a request with an action, any operator of its organization and any platform creator but
      the requester; any other one, under its item's policy: peer, anyone but the requester; platform-admin,
      any operator; otherwise anyone. And why the others may not. */
  lemma WhoMayDecide(at: Settings, req: Request, approver: string)
    ensures var own := SameActor(req.requester, approver);
            var operator := (req.org, approver) in at.operators;
            var known := req.item in at.policies;
            var verdict := MayDecide(at, req, approver);
            && (verdict.Ok? <==>
                  if req.action != "" then !own && (operator || approver in at.creators)
                  else known && (at.policies[req.item].Peer? ==> !own) && (at.policies[req.item].PlatformAdmin? ==> operator))
            && (verdict == Err(SelfApproval) <==> own && (req.action != "" || (known && at.policies[req.item].Peer?)))
            && (verdict == Err(UnknownItem) <==> req.action == "" && !known)
            && (verdict.Err? ==> verdict.error in {SelfApproval, UnknownItem, ApproverRole})
  {
  }

  lemma TwoSteps(w: World, a: Step, b: Step)
    ensures Run(w, [a, b]) == Take(Take(w, a), b)
  {
    assert [a, b][1..] == [b] && [b][1..] == [];
    assert Run(Take(w, a), [b]) == Run(Take(Take(w, a), b), []);
  }

  lemma CallComesAndGoes(calls: map<nat, Call>, call: nat, c: Call)
    requires call !in calls
    ensures calls - {call} == calls && calls[call := c] - {call} == calls
  {
  }

  /** A decision that nothing interferes with settles the request as decided, with its one event, exactly if
      the request is pending in that organization and the approver may decide it; otherwise it changes nothing. */
  lemma DecisionSettlesExactly(w: World, call: nat, org: string, id: nat, approver: string, approve: bool)
    requires call !in w.calls && w.settings != []
    ensures var v := Run(w, [BeginDecide(call, org, id, approver, approve), Finish(call)]);
            var verdict := if id < |w.requests| then MayDecide(w.settings[|w.settings| - 1], w.requests[id], approver) else Err(NotFound);
            if id < |w.requests| && w.requests[id].org == org && w.requests[id].state == Pending && verdict.Ok? then
              v == w.(requests := w.requests[id := w.requests[id].(state := if approve then Approved else Rejected)],
                      events := w.events + [Event(id, Decided(approve, approver, verdict.value, |w.settings| - 1))])
            else v == w
  {
    hide MayDecide;
    TwoSteps(w, BeginDecide(call, org, id, approver, approve), Finish(call));
    var check := DecideCheck(w, org, id, approver);
    CallComesAndGoes(w.calls, call, if check.Ok? then Deciding(id, approve, approver, check.value, |w.settings| - 1) else Cancelling(id, approver));
  }

  /** A withdrawal likewise, by its requester under either spelling. */
  lemma CancelSettlesExactly(w: World, call: nat, org: string, id: nat, actor: string)
    requires call !in w.calls
    ensures var v := Run(w, [BeginCancel(call, org, id, actor), Finish(call)]);
            if id < |w.requests| && w.requests[id].org == org && w.requests[id].state == Pending && SameActor(w.requests[id].requester, actor) then
              v == w.(requests := w.requests[id := w.requests[id].(state := Cancelled)], events := w.events + [Event(id, CancelledBy(actor))])
            else v == w
  {
    TwoSteps(w, BeginCancel(call, org, id, actor), Finish(call));
    CallComesAndGoes(w.calls, call, Cancelling(id, actor));
  }

  function Finishes(call: nat, n: nat): seq<Step> {
    if n == 0 then [] else [Finish(call)] + Finishes(call, n - 1)
  }

  lemma SettleIgnoresCalls(w: World, calls: map<nat, Call>, id: nat, s: Settlement)
    ensures Settle(w.(calls := calls), id, s) == Settle(w, id, s).(calls := calls)
  {
  }

  lemma {:induction false} SweepGoesOn(w: World, call: nat, left: seq<nat>)
    requires call in w.calls && w.calls[call] == Sweeping(left)
    ensures Run(w, Finishes(call, |left| + 1)) == ExpireAll(w.(calls := w.calls - {call}), left)
    decreases |left|
  {
    var steps := Finishes(call, |left| + 1);
    assert steps[1..] == Finishes(call, |left|);
    var next := TakeFinish(w, call);
    if left == [] {
      assert Run(next, []) == next;
    } else {
      var calls := w.calls[call := Sweeping(left[1..])];
      SettleIgnoresCalls(w, calls, left[0], RanOut);
      SettleIgnoresCalls(w, w.calls - {call}, left[0], RanOut);
      SweepGoesOn(next, call, left[1..]);
      assert calls - {call} == w.calls - {call};
    }
  }

  /** A sweep that nothing interferes with expires exactly the pending requests whose time is up, and leaves
      every other request as it was. */
  lemma SweepExpiresExactly(w: World, call: nat)
    requires call !in w.calls
    ensures var v := Run(w, [BeginSweep(call)] + Finishes(call, |OverdueFrom(w, 0)| + 1));
            && v.calls == w.calls && v.now == w.now && |v.requests| == |w.requests|
            && forall id | 0 <= id < |w.requests| ::
                 var req := w.requests[id];
                 v.requests[id] == if req.state == Pending && req.expires.Some? && req.expires.value <= w.now then req.(state := Expired) else req
  {
    var left := OverdueFrom(w, 0);
    var begun := Take(w, BeginSweep(call));
    var steps := [BeginSweep(call)] + Finishes(call, |left| + 1);
    assert steps[1..] == Finishes(call, |left| + 1);
    SweepGoesOn(begun, call, left);
    CallComesAndGoes(w.calls, call, Sweeping(left));
    OverdueAreListed(w, 0);
    ExpireAllSettles(w, left);
    ExpireAllKeepsCalls(w, left);
  }

  lemma {:induction false} ExpireAllKeepsCalls(w: World, ids: seq<nat>)
    ensures ExpireAll(w, ids).calls == w.calls
    decreases |ids|
  {
    if ids != [] {
      ExpireAllKeepsCalls(Settle(w, ids[0], RanOut), ids[1..]);
    }
  }
}
