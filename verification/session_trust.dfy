/** What a stored checksum vouches for, and when a dropped sync is taken up again. */
module SessionTrust {
  import opened Wrappers
  import opened Capabilities
  import opened AgentSession

  /** If the stored checksum is the agent's, the server has what the agent has: a handshake that compares
      the two and finds them equal then misses nothing. */
  predicate Trusted(v: View, agent: AgentState, hash: AgentState -> string) {
    v.stored == hash(agent) ==> Live(v.rows) == Visible(agent)
  }

  predicate Incremental(e: Event) {
    e.body.CapabilityUpdate? && !e.body.update.fullSync
  }

  /** An incremental update reports a change of the agent; nothing else changes it. */
  function AgentAfter(agent: AgentState, e: Event): AgentState {
    if Incremental(e) then ReplayWire(agent, e.body.update.capabilities) else agent
  }

  /** The checksum stored after the event. */
  function Left(v: View, e: Event): string {
    if !Commits(v, e) then v.stored else if e.body.CapabilityUpdate? then e.body.update.checksum else e.body.checksum
  }

  /** The chunks of a sync hold what the agent has, and the last one, if it leaves the agent's checksum stored,
      comes when all of it was brought. Checksums of updates and answers may be any. */
  predicate Honest(v: View, agent: AgentState, hash: AgentState -> string, e: Event) {
    e.body.CapabilityUpdate? && e.body.update.fullSync ==>
      if Terminal(e.body.update) then Left(v, e) == hash(agent) ==> Building(Abstract(v)) == Visible(agent)
      else ReplayWire(agent, e.body.update.capabilities) == agent
  }

  function Touched(items: seq<Item>): set<Key> {
    if items == [] then {} else {items[0].key} + Touched(items[1..])
  }

  predicate AgreeOutside(a: map<Key, Content>, b: map<Key, Content>, keys: set<Key>) {
    forall k | k in a.Keys + b.Keys && k !in keys :: k in a && k in b && a[k] == b[k]
  }

  /** The keys an event outside a full sync brings the state of. */
  function Brought(e: Event): set<Key> {
    if e.body.CapabilityUpdate? then Touched(Items(e.body.update)) else {}
  }

  /** A resync answer or incremental update that leaves the agent's own checksum stored while the server
      differs from the agent somewhere the event says nothing about. */
  predicate Overtakes(v: View, agent: AgentState, hash: AgentState -> string, e: Event) {
    && (e.body.ResyncResponse? || Incremental(e))
    && Left(v, e) == hash(AgentAfter(agent, e))
    && !AgreeOutside(Live(v.rows), Visible(agent), Brought(e))
  }

  lemma {:induction false} ReplaysMeetExactly(a: map<Key, Content>, b: map<Key, Content>, items: seq<Item>)
    ensures Replay(a, items) == Replay(b, items) <==> AgreeOutside(a, b, Touched(items))
    decreases |items|
  {
    if items == [] {
      assert AgreeOutside(a, b, {}) <==> a == b by {
        if AgreeOutside(a, b, {}) {
          assert forall k | k in a.Keys + b.Keys :: k in a && k in b && a[k] == b[k];
        }
      }
    } else {
      ReplaysMeetExactly(Put(a, items[0]), Put(b, items[0]), items[1..]);
      PutHidesItsKey(a, b, items[0], Touched(items[1..]));
    }
  }

  lemma PutHidesItsKey(a: map<Key, Content>, b: map<Key, Content>, item: Item, keys: set<Key>)
    ensures AgreeOutside(Put(a, item), Put(b, item), keys) <==> AgreeOutside(a, b, {item.key} + keys)
  {
    var c, d := Put(a, item), Put(b, item);
    if AgreeOutside(c, d, keys) {
      forall k | k in a.Keys + b.Keys && k !in {item.key} + keys ensures k in a && k in b && a[k] == b[k] {
        assert k in c.Keys + d.Keys;
      }
    }
    if AgreeOutside(a, b, {item.key} + keys) {
      forall k | k in c.Keys + d.Keys && k !in keys ensures k in c && k in d && c[k] == d[k] {
        assert k != item.key ==> k in a.Keys + b.Keys;
      }
    }
  }

  lemma UpdateAndTrust(v: View, agent: AgentState, hash: AgentState -> string, e: Event)
    requires e.body.CapabilityUpdate? && Trusted(v, agent, hash) && Honest(v, agent, hash, e)
    ensures Trusted(AfterEvent(v, e), AgentAfter(agent, e), hash) <==> !Overtakes(v, agent, hash, e)
  {
    hide MapUpdate, Replay, ReplayWire, Visible, Live, Upserts, ApplyItems, DropMissing;
    var u := e.body.update;
    var w := AfterSequence(v, e.sequence);
    UpdateFollows(w, u);
    VisibleReplay(agent, u.capabilities);
    ReplaysMeetExactly(Live(v.rows), Visible(agent), Items(u));
  }

  lemma AnswerAndTrust(v: View, agent: AgentState, hash: AgentState -> string, e: Event)
    requires !e.body.CapabilityUpdate? && Trusted(v, agent, hash)
    ensures Trusted(AfterEvent(v, e), AgentAfter(agent, e), hash) <==> !Overtakes(v, agent, hash, e)
  {
    hide Visible, Live, AfterUpdate;
    ReplaysMeetExactly(Live(v.rows), Visible(agent), []);
    assert Replay(Live(v.rows), []) == Live(v.rows) && Replay(Visible(agent), []) == Visible(agent);
    assert Brought(e) == Touched([]);
  }

  /** A checksum keeps vouching for the table through every event of an honest agent except, exactly, a
      resync answer or incremental update that overtakes what it vouches for. */
  lemma TrustKeptExactly(v: View, agent: AgentState, hash: AgentState -> string, e: Event)
    requires Trusted(v, agent, hash) && Honest(v, agent, hash, e)
    ensures Trusted(AfterEvent(v, e), AgentAfter(agent, e), hash) <==> !Overtakes(v, agent, hash, e)
  {
    if e.body.CapabilityUpdate? {
      UpdateAndTrust(v, agent, hash, e);
    } else {
      AnswerAndTrust(v, agent, hash, e);
    }
  }

  // ----- When the stream drops

  /** The session of the agent's next connection: it has the table and the stored checksum, nothing else. */
  function Reconnected(v: View): View {
    View(v.rows, v.stored, None, 0, v.stored, 0, false)
  }

  predicate AsksAgain(v: View, lastSeen: string) {
    HandshakeResync in Replies(Reconnected(v), Event(1, Handshake(lastSeen)))
  }

  function AgentAfterAll(agent: AgentState, es: seq<Event>): AgentState
    decreases |es|
  {
    if es == [] then agent else AgentAfterAll(AgentAfter(agent, es[0]), es[1..])
  }

  predicate Sound(v: View, agent: AgentState, hash: AgentState -> string, es: seq<Event>)
    decreases |es|
  {
    es == [] ||
    (Honest(v, agent, hash, es[0]) && !Overtakes(v, agent, hash, es[0])
     && Sound(AfterEvent(v, es[0]), AgentAfter(agent, es[0]), hash, es[1..]))
  }

  lemma {:induction false} TrustLasts(v: View, agent: AgentState, hash: AgentState -> string, es: seq<Event>)
    requires Trusted(v, agent, hash) && Sound(v, agent, hash, es)
    ensures Trusted(AfterEvents(v, es), AgentAfterAll(agent, es), hash)
    decreases |es|
  {
    hide Trusted, Honest, Overtakes;
    if es != [] {
      TrustKeptExactly(v, agent, hash, es[0]);
      TrustLasts(AfterEvent(v, es[0]), AgentAfter(agent, es[0]), hash, es[1..]);
    }
  }

  lemma AsksExactly(v: View, lastSeen: string)
    ensures AsksAgain(v, lastSeen) <==> lastSeen != "" && v.stored != "" && lastSeen != v.stored
  {
    var out := Replies(Reconnected(v), Event(1, Handshake(lastSeen)));
    if Stale(Reconnected(v), lastSeen) {
      assert out[|out| - 1] == HandshakeResync;
    }
  }

  /** Wherever a stream drops, in the middle of a sync or not: if the server then differs from the agent, the
      next handshake asks for a resync, once some checksum is stored and unless an overtaking one was. */
  lemma DroppedSyncIsAskedFor(v: View, agent: AgentState, hash: AgentState -> string, es: seq<Event>)
    requires Trusted(v, agent, hash) && Sound(v, agent, hash, es)
    ensures var w, last := AfterEvents(v, es), AgentAfterAll(agent, es);
            Live(w.rows) != Visible(last) && w.stored != "" && hash(last) != "" ==> AsksAgain(w, hash(last))
  {
    TrustLasts(v, agent, hash, es);
    AsksExactly(AfterEvents(v, es), hash(AgentAfterAll(agent, es)));
  }

  /** The checksum of the last resync answer that had one. */
  function LastAnswer(stored: string, es: seq<Event>): string
    decreases |es|
  {
    if es == [] then stored
    else
      LastAnswer(if es[0].body.ResyncResponse? && es[0].body.checksum != "" then es[0].body.checksum else stored, es[1..])
  }

  /** Nothing but full chunks among the updates, and the sync not ended. */
  predicate Unfinished(es: seq<Event>) {
    forall i | 0 <= i < |es| && es[i].body.CapabilityUpdate? :: es[i].body.update.fullSync && !Terminal(es[i].body.update)
  }

  lemma {:induction false} OnlyAnswersCommit(v: View, es: seq<Event>)
    requires Unfinished(es)
    ensures AfterEvents(v, es).stored == LastAnswer(v.stored, es)
    decreases |es|
  {
    hide MapUpdate, Upserts, ApplyItems, DropMissing;
    if es != [] {
      assert forall i | 0 <= i < |es[1..]| :: es[1..][i] == es[i + 1];
      ChecksumChangesOnlyByCommit(v, es[0]);
      OnlyAnswersCommit(AfterEvent(v, es[0]), es[1..]);
    }
  }

  /** An abandoned sync is asked for again exactly if the checksum of the last resync answer, or the stored
      one without any, is there and is not the agent's; so a first sync, before anything is stored, is not,
      and one whose answer came ahead of its chunks is not. */
  lemma AbandonedSyncAskedForExactly(v: View, es: seq<Event>, lastSeen: string)
    requires Unfinished(es) && lastSeen != ""
    ensures AsksAgain(AfterEvents(v, es), lastSeen) <==> LastAnswer(v.stored, es) != "" && LastAnswer(v.stored, es) != lastSeen
  {
    OnlyAnswersCommit(v, es);
    AsksExactly(AfterEvents(v, es), lastSeen);
  }

  lemma {:induction false} ChunkEventsAreUpdates(v: View, chunks: seq<Update>, es: seq<Event>)
    requires |es| == |chunks| && forall i | 0 <= i < |es| :: es[i] == Event(0, CapabilityUpdate(chunks[i]))
    ensures AfterEvents(v, es) == AfterUpdates(v, chunks)
    decreases |es|
  {
    hide AfterUpdate;
    if es != [] {
      assert forall i | 0 <= i < |es[1..]| :: es[1..][i] == es[i + 1];
      ChunkEventsAreUpdates(AfterUpdate(v, chunks[0]), chunks[1..], es[1..]);
    }
  }

  /** The loss: the agent answers with its checksum and sends chunks, and the stream drops before the last
      one. A capability the agent no longer has stays live, and no handshake asks about it. */
  lemma AnsweredSyncIsNotAskedFor(v: View, agent: AgentState, hash: AgentState -> string, chunks: seq<Update>, gone: Key)
    requires gone in Live(v.rows) && gone !in Visible(agent)
    requires forall i | 0 <= i < |chunks| :: chunks[i].fullSync && !Terminal(chunks[i])
    requires Delete(gone) !in AllItems(chunks)
    ensures var answer := Event(0, ResyncResponse(hash(agent)));
            var es := [answer] + seq(|chunks|, i requires 0 <= i < |chunks| => Event(0, CapabilityUpdate(chunks[i])));
            && gone in Live(AfterEvents(v, es).rows)
            && (hash(agent) != "" ==> Overtakes(v, agent, hash, answer) && !AsksAgain(AfterEvents(v, es), hash(agent)))
  {
    var answer := Event(0, ResyncResponse(hash(agent)));
    var rest := seq(|chunks|, i requires 0 <= i < |chunks| => Event(0, CapabilityUpdate(chunks[i])));
    var es := [answer] + rest;
    var answered := AfterEvent(v, answer);
    assert es[1..] == rest && answered.rows == v.rows;
    ChunkEventsAreUpdates(answered, chunks, rest);
    if gone !in Live(AfterUpdates(answered, chunks).rows) {
      AbandonedSyncLosesNothing(answered, chunks, gone);
    }
    OnlyAnswersCommit(answered, rest);
    NoAnswers(hash(agent), rest);
    AsksExactly(AfterEvents(v, es), hash(agent));
    assert gone in Live(v.rows).Keys + Visible(agent).Keys;
  }

  lemma {:induction false} NoAnswers(stored: string, es: seq<Event>)
    requires NoResponse(es)
    ensures LastAnswer(stored, es) == stored
    decreases |es|
  {
    if es != [] {
      assert forall i | 0 <= i < |es[1..]| :: es[1..][i] == es[i + 1];
      NoAnswers(stored, es[1..]);
    }
  }
}
