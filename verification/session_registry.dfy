/** One live session per cluster: a new stream evicts the one before it. */
module SessionRegistry {
  import opened Wrappers

  /** Sessions are numbered as they register. */
  datatype Call =
    | Register(cluster: string)
    | Unregister(cluster: string, session: nat)

  datatype State = State(current: map<string, nat>, evicted: set<nat>, count: nat)

  const EMPTY := State(map[], {}, 0)

  function After(s: State, call: Call): State {
    match call
    case Register(c) =>
      State(s.current[c := s.count], if c in s.current then s.evicted + {s.current[c]} else s.evicted, s.count + 1)
    case Unregister(c, h) =>
      if c in s.current && s.current[c] == h then s.(current := s.current - {c}) else s
  }

  class Registry {
    var current: map<string, nat>
    var evicted: set<nat>
    var count: nat

    ghost function Snapshot(): State
      reads this
    {
      State(current, evicted, count)
    }

    constructor ()
      ensures Snapshot() == EMPTY
    {
      current, evicted, count := map[], {}, 0;
    }

    method RegisterSession(cluster: string) returns (session: nat)
      modifies this
      ensures Snapshot() == After(old(Snapshot()), Register(cluster))
      ensures session == old(count) && cluster in current && current[cluster] == session
    {
      session := count;
      count := count + 1;
      if cluster in current {
        evicted := evicted + {current[cluster]};
      }
      current := current[cluster := session];
    }

    method UnregisterSession(cluster: string, session: nat)
      modifies this`current
      ensures Snapshot() == After(old(Snapshot()), Unregister(cluster, session))
    {
      if cluster in current && current[cluster] == session {
        current := current - {cluster};
      }
    }
  }

  function AfterAll(calls: seq<Call>): State {
    if calls == [] then EMPTY else After(AfterAll(calls[..|calls| - 1]), calls[|calls| - 1])
  }

  /** The clusters in the order their sessions registered. */
  function Registered(calls: seq<Call>): seq<string> {
    if calls == [] then []
    else
      var last := calls[|calls| - 1];
      Registered(calls[..|calls| - 1]) + (if last.Register? then [last.cluster] else [])
  }

  /** Whether a session has given itself up: it unregistered, after it had registered, under its cluster. */
  predicate GaveUp(calls: seq<Call>, cluster: string, session: nat) {
    calls != [] &&
    var before := calls[..|calls| - 1];
    GaveUp(before, cluster, session) || (calls[|calls| - 1] == Unregister(cluster, session) && session < |Registered(before)|)
  }

  predicate LatestFor(calls: seq<Call>, session: nat) {
    session < |Registered(calls)|
    && forall later | session < later < |Registered(calls)| :: Registered(calls)[later] != Registered(calls)[session]
  }

  /** Over every order of calls, late and repeated ones included: a session is the current one of its
      cluster exactly if no later stream of that cluster registered and it has not unregistered itself;
      so there is at most one, and an evicted session can never remove its replacement. Only a session
      with a successor is ever evicted. */
  lemma {:induction false} LastStreamWins(calls: seq<Call>, c: string, h: nat)
    ensures AfterAll(calls).count == |Registered(calls)|
    ensures c in AfterAll(calls).current && AfterAll(calls).current[c] == h
            <==> LatestFor(calls, h) && Registered(calls)[h] == c && !GaveUp(calls, c, h)
    ensures h in AfterAll(calls).evicted ==> h < |Registered(calls)| && !LatestFor(calls, h)
  {
    if calls != [] {
      var before, last := calls[..|calls| - 1], calls[|calls| - 1];
      var s := AfterAll(before);
      LastStreamWins(before, c, h);
      match last {
        case Register(d) =>
          if d in s.current {
            LastStreamWins(before, d, s.current[d]);
          }
          if h < |Registered(before)| {
            assert Registered(calls)[h] == Registered(before)[h];
            if h in AfterAll(calls).evicted && h !in s.evicted {
              assert Registered(calls)[|Registered(before)|] == d;
            }
            if LatestFor(before, h) && Registered(before)[h] != d {
              assert LatestFor(calls, h);
            }
            if LatestFor(calls, h) {
              assert forall k | h < k < |Registered(before)| :: Registered(calls)[k] == Registered(before)[k];
            }
            if !LatestFor(before, h) {
              var k :| h < k < |Registered(before)| && Registered(before)[k] == Registered(before)[h];
              assert Registered(calls)[k] == Registered(calls)[h];
            }
          } else if h == |Registered(before)| {
            if GaveUp(before, c, h) {
              GaveUpRegistered(before, c, h);
            }
          }
        case Unregister(_, _) =>
          assert Registered(calls) == Registered(before);
      }
    }
  }

  lemma {:induction false} GaveUpRegistered(calls: seq<Call>, c: string, h: nat)
    requires GaveUp(calls, c, h)
    ensures h < |Registered(calls)|
  {
    var before := calls[..|calls| - 1];
    if GaveUp(before, c, h) {
      GaveUpRegistered(before, c, h);
    }
  }

  /** A session is evicted at most once, so its channel is closed at most once. */
  lemma EvictedOnlyOnce(calls: seq<Call>, cluster: string)
    requires cluster in AfterAll(calls).current
    ensures AfterAll(calls).current[cluster] !in AfterAll(calls).evicted
  {
    LastStreamWins(calls, cluster, AfterAll(calls).current[cluster]);
  }
}
