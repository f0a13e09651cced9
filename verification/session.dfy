/** One agent session: framed full syncs, incremental updates, checksums and resync requests. */
module AgentSession {
  import opened Wrappers
  import opened Capabilities
  import Q = CommandQueue
  import CommandDispatch

  /** A full sync is a series of chunks ended by an empty one. */
  datatype Update = Update(fullSync: bool, capabilities: seq<WireCapability>, checksum: string)

  predicate Terminal(u: Update) {
    u.fullSync && u.capabilities == []
  }

  function Items(u: Update): seq<Item> {
    MapUpdate(u.capabilities)
  }

  datatype Body =
    | CapabilityUpdate(update: Update)
    | MalformedUpdate
    | ResyncResponse(checksum: string) // an unreadable response counts as one without a checksum
    | Handshake(lastSeenChecksum: string)
    | CommandAnswer(id: string, refused: bool, message: string)
    | OtherBody

  datatype Event = Event(sequence: int, body: Body)

  datatype Reply =
    | GapResync(expected: int, got: int)
    | HandshakeResponse(resyncRequired: bool)
    | HandshakeResync

  /** The session and the part of the store it works on. `keep` is None unless a sync is in flight. */
  datatype View = View(rows: Rows, stored: string, keep: Option<set<Key>>, upserted: nat, cached: string,
                       expected: int, resyncSent: bool)

  function KeepOf(v: View): set<Key> {
    if v.keep.Some? then v.keep.value else {}
  }

  function AfterUpdate(v: View, u: Update): View {
    var rows := ApplyItems(v.rows, Items(u));
    if !u.fullSync then
      if v.keep.Some? then v.(rows := rows, keep := Some(v.keep.value + Upserts(Items(u))))
      else v.(rows := rows, stored := Committed(v.stored, u.checksum), cached := Committed(v.cached, u.checksum))
    else
      var keep := KeepOf(v) + Upserts(Items(u));
      if u.capabilities != [] then v.(rows := rows, keep := Some(keep), upserted := v.upserted + UpsertCount(Items(u)))
      else
        v.(rows := DropMissing(rows, keep), keep := None, upserted := 0,
           stored := Committed(v.stored, u.checksum), cached := Committed(v.cached, u.checksum))
  }

  function AfterSequence(v: View, sequence: int): View {
    if sequence <= 0 then v
    else v.(expected := sequence + 1, resyncSent := v.resyncSent || GapFound(v, sequence))
  }

  predicate GapFound(v: View, sequence: int) {
    sequence > 0 && v.expected > 0 && sequence != v.expected && !v.resyncSent
  }

  predicate Stale(v: View, lastSeen: string) {
    lastSeen != "" && v.cached != "" && lastSeen != v.cached
  }

  function AfterEvent(v: View, e: Event): View {
    var w := AfterSequence(v, e.sequence);
    match e.body
    case CapabilityUpdate(u) => AfterUpdate(w, u)
    case ResyncResponse(checksum) =>
      w.(stored := Committed(w.stored, checksum), cached := Committed(w.cached, checksum), resyncSent := false)
    case Handshake(lastSeen) => w.(resyncSent := w.resyncSent || Stale(w, lastSeen))
    case _ => w
  }

  function Replies(v: View, e: Event): seq<Reply> {
    (if GapFound(v, e.sequence) then [GapResync(v.expected, e.sequence)] else [])
    + (match e.body
       case Handshake(lastSeen) =>
         [HandshakeResponse(Stale(v, lastSeen))] + (if Stale(v, lastSeen) then [HandshakeResync] else [])
       case _ => [])
  }

  /** What an event does to the command queue of the agent's cluster: an answer completes the command it is
      about, and a resync response retires the resync requests that were queued. */
  function QueueAfter(rows: Q.Rows<string>, cluster: string, resyncRequest: string, now: int, e: Event): Q.Rows<string> {
    match e.body
    case CommandAnswer(id, refused, message) =>
      Q.AfterAnswer(rows, CommandDispatch.AckTarget(rows, id), if refused then Q.CommandNacked else Q.CommandAcked, message, now)
    case ResyncResponse(_) => Q.AfterTypeAnswer(rows, cluster, resyncRequest, "resync completed", now)
    case _ => rows
  }

  /** A command that was refused is kept as refused, any other answered one as acknowledged, each with what the
      agent said. */
  predicate Answered(c: Q.Command, refused: bool, message: string) {
    (c.status == Q.CommandNacked <==> refused) && (c.status == Q.CommandAcked <==> !refused) && c.message == message
  }

  /** A resync response acknowledges the open resync requests of the cluster, and an answer settles the command
      it is about as it says; no other command changes, and no other event changes any. */
  lemma AnswersRetire(rows: Q.Rows<string>, cluster: string, resyncRequest: string, now: int, e: Event)
    ensures var after := QueueAfter(rows, cluster, resyncRequest, now, e);
            && after.Keys == rows.Keys
            && (e.body.ResyncResponse? ==> forall k | k in rows ::
                  if rows[k].cluster == cluster && rows[k].kind == resyncRequest && Q.Open(rows[k])
                  then after[k].status == Q.CommandAcked && after[k].message == "resync completed"
                  else after[k] == rows[k])
            && (e.body.CommandAnswer? && e.body.id in rows ==>
                  && Answered(after[e.body.id], e.body.refused, e.body.message)
                  && forall k | k in rows && k != e.body.id :: after[k] == rows[k])
            && (!e.body.ResyncResponse? && !e.body.CommandAnswer? ==> after == rows)
  {
  }

  lemma NothingIngested(rows: Rows, keep: set<Key>)
    ensures ApplyItems(rows, []) == rows && keep + Upserts([]) == keep && UpsertCount([]) == 0
    ensures MapUpdate([]) == []
  {
  }

  /** A chunk is taken in, and the last one then finishes the sync. */
  lemma ChunkTaken(v: View, u: Update)
    requires u.fullSync
    ensures var taken := v.(rows := ApplyItems(v.rows, Items(u)), keep := Some(KeepOf(v) + Upserts(Items(u))),
                            upserted := v.upserted + UpsertCount(Items(u)));
            AfterUpdate(v, u) ==
              if u.capabilities != [] then taken
              else taken.(rows := DropMissing(taken.rows, KeepOf(taken)), keep := None, upserted := 0,
                          stored := Committed(v.stored, u.checksum), cached := Committed(v.cached, u.checksum))
    ensures u.capabilities == [] ==>
              ApplyItems(v.rows, Items(u)) == v.rows && UpsertCount(Items(u)) == 0 && KeepOf(v) + Upserts(Items(u)) == KeepOf(v)
  {
    if u.capabilities == [] {
      NothingIngested(v.rows, KeepOf(v));
    }
    hide ApplyItems, DropMissing, UpsertCount, Upserts, MapUpdate;
  }

  class Session {
    const store: Store
    const commands: CommandDispatch.Dispatcher
    const resyncRequest: string
    var syncKeep: Option<set<Key>>
    var syncUpserted: nat
    var cached: string
    var expectedSeq: int
    var resyncSent: bool

    ghost function Snapshot(): View
      reads this, store
    {
      View(store.rows, store.checksum, syncKeep, syncUpserted, cached, expectedSeq, resyncSent)
    }

    /** A session starts from the stored cluster. */
    constructor (store: Store, commands: CommandDispatch.Dispatcher, resyncRequest: string)
      ensures this.store == store && this.commands == commands && this.resyncRequest == resyncRequest
      ensures Snapshot() == View(store.rows, store.checksum, None, 0, store.checksum, 0, false)
    {
      this.store, this.commands, this.resyncRequest := store, commands, resyncRequest;
      syncKeep, syncUpserted, cached, expectedSeq, resyncSent := None, 0, store.checksum, 0, false;
    }

    /** Add the keys of upserted items to the keep set of the sync in flight. */
    method UnionKeep(items: seq<Item>)
      requires syncKeep.Some?
      modifies this`syncKeep
      ensures syncKeep == Some(old(syncKeep.value) + Upserts(items))
    {
      for i := 0 to |items|
        invariant syncKeep.Some? && syncKeep.value == old(syncKeep.value) + Upserts(items[..i])
      {
        assert items[..i + 1] == items[..i] + [items[i]];
        UpsertsAppend(items[..i], [items[i]]);
        assert [items[i]][1..] == [];
        if items[i].Delete? {
          continue;
        }
        syncKeep := Some(syncKeep.value + {items[i].key});
      }
      assert items[..|items|] == items;
    }

    /** The record an update leaves in the outbox; chunks other than the last leave none. */
    ghost function Record(u: Update): seq<Ingested>
      reads this, store
    {
      if !u.fullSync then
        [Ingested(UpsertCount(Items(u)), DeleteCount(Live(store.rows), Items(u)), false, if syncKeep.Some? then "" else u.checksum)]
      else if Terminal(u) then [Ingested(syncUpserted, |Live(store.rows).Keys - KeepOf(Snapshot())|, true, u.checksum)]
      else []
    }

    method HandleIncremental(u: Update, items: seq<Item>)
      requires !u.fullSync && items == Items(u)
      modifies this`syncKeep, this`cached, store
      ensures Snapshot() == AfterUpdate(old(Snapshot()), u)
      ensures store.outbox == old(store.outbox) + old(Record(u))
    {
      var checksum := u.checksum;
      if syncKeep.Some? {
        checksum := "";
      }
      store.Ingest(items, checksum);
      if syncKeep.Some? {
        UnionKeep(items);
      } else if u.checksum != "" {
        cached := u.checksum;
      }
    }

    /** Take the items of a chunk in and remember their keys. */
    method TakeChunk(items: seq<Item>)
      modifies this`syncKeep, this`syncUpserted, store`rows
      ensures Snapshot() == var v := old(Snapshot());
              v.(rows := ApplyItems(v.rows, items), keep := Some(KeepOf(v) + Upserts(items)), upserted := v.upserted + UpsertCount(items))
    {
      hide ApplyItems, UpsertCount, Upserts;
      var upserted := store.IngestChunk(items);
      if syncKeep.None? {
        syncKeep := Some({});
      }
      UnionKeep(items);
      syncUpserted := syncUpserted + upserted;
    }

    /** Reconcile what the finished sync has not brought, and commit its checksum. */
    method FinishSync(checksum: string)
      requires syncKeep.Some?
      modifies this`syncKeep, this`syncUpserted, this`cached, store
      ensures Snapshot() == var v := old(Snapshot());
              v.(rows := DropMissing(v.rows, KeepOf(v)), keep := None, upserted := 0,
                 stored := Committed(v.stored, checksum), cached := Committed(v.cached, checksum))
      ensures store.outbox == old(store.outbox)
                + [Ingested(old(syncUpserted), |Live(old(store.rows)).Keys - old(syncKeep).value|, true, checksum)]
    {
      hide DropMissing, Live;
      store.FinalizeSync(syncKeep.value, checksum, syncUpserted);
      syncKeep := None;
      syncUpserted := 0;
      if checksum != "" {
        cached := checksum;
      }
    }

    method HandleChunk(u: Update, items: seq<Item>)
      requires u.fullSync && items == Items(u)
      modifies this`syncKeep, this`syncUpserted, this`cached, store
      ensures Snapshot() == AfterUpdate(old(Snapshot()), u)
      ensures store.outbox == old(store.outbox) + old(Record(u))
    {
      ghost var before := Snapshot();
      ChunkTaken(before, u);
      hide ApplyItems, DropMissing, Live, UpsertCount, Upserts, MapUpdate, Committed, AfterUpdate, KeepOf;
      TakeChunk(items);
      if |u.capabilities| > 0 {
        return;
      }
      FinishSync(u.checksum);
    }

    method HandleCapabilityUpdate(u: Update)
      modifies this`syncKeep, this`syncUpserted, this`cached, store
      ensures Snapshot() == AfterUpdate(old(Snapshot()), u)
      ensures store.outbox == old(store.outbox) + old(Record(u))
      ensures !u.fullSync ==>
                store.outbox == old(store.outbox)
                  + [Ingested(UpsertCount(Items(u)), DeleteCount(Live(old(store.rows)), Items(u)), false,
                              if old(syncKeep).Some? then "" else u.checksum)]
      ensures u.fullSync && u.capabilities != [] ==> store.outbox == old(store.outbox)
      ensures u.fullSync && u.capabilities == [] ==>
                store.outbox == old(store.outbox)
                  + [Ingested(old(syncUpserted),
                              |Live(old(store.rows)).Keys - (if old(syncKeep).Some? then old(syncKeep).value else {})|, true, u.checksum)]
    {
      hide AfterUpdate, MapUpdate;
      var items := MapCapabilityUpdate(u.capabilities);
      if !u.fullSync {
        HandleIncremental(u, items);
        return;
      }
      HandleChunk(u, items);
    }

    method CheckSequence(sequence: int) returns (out: seq<Reply>)
      modifies this`expectedSeq, this`resyncSent
      ensures Snapshot() == AfterSequence(old(Snapshot()), sequence)
      ensures out == if GapFound(old(Snapshot()), sequence) then [GapResync(old(expectedSeq), sequence)] else []
    {
      out := [];
      if sequence > 0 {
        if expectedSeq > 0 && sequence != expectedSeq && !resyncSent {
          out := [GapResync(expectedSeq, sequence)];
          resyncSent := true;
        }
        expectedSeq := sequence + 1;
      }
    }

    /** The checksum of a resync response is committed, and queued resync requests are retired. */
    method TakeResyncResponse(checksum: string)
      modifies this`cached, this`resyncSent, store`checksum, commands.queue`rows
      ensures Snapshot() == var v := old(Snapshot());
              v.(stored := Committed(v.stored, checksum), cached := Committed(v.cached, checksum), resyncSent := false)
      ensures commands.queue.rows
              == Q.AfterTypeAnswer(old(commands.queue.rows), commands.cluster, resyncRequest, "resync completed", commands.queue.now)
    {
      hide Q.AfterTypeAnswer;
      if checksum != "" {
        store.checksum := checksum;
        cached := checksum;
      }
      commands.queue.CompletePendingByType(commands.cluster, resyncRequest, "resync completed");
      resyncSent := false;
    }

    method HandleEvent(e: Event) returns (out: seq<Reply>)
      modifies this, store, commands.queue`rows
      ensures Snapshot() == AfterEvent(old(Snapshot()), e)
      ensures out == Replies(old(Snapshot()), e)
      ensures commands.queue.rows == QueueAfter(old(commands.queue.rows), commands.cluster, resyncRequest, commands.queue.now, e)
      ensures e.body.CommandAnswer? && e.body.id in old(commands.queue.rows) ==>
                e.body.id in commands.queue.rows && Answered(commands.queue.rows[e.body.id], e.body.refused, e.body.message)
    {
      AnswersRetire(commands.queue.rows, commands.cluster, resyncRequest, commands.queue.now, e);
      hide Q.AfterTypeAnswer, Q.AfterAnswer, CommandDispatch.AckTarget, AfterUpdate, Committed;
      out := CheckSequence(e.sequence);
      match e.body {
        case CapabilityUpdate(u) =>
          HandleCapabilityUpdate(u);
        case ResyncResponse(checksum) =>
          TakeResyncResponse(checksum);
        case CommandAnswer(id, refused, message) =>
          var target, ok := commands.HandleAck(id, if refused then Q.CommandNacked else Q.CommandAcked, message);
        case Handshake(lastSeen) =>
          var resync := lastSeen != "" && cached != "" && lastSeen != cached;
          out := out + [HandshakeResponse(resync)];
          if resync {
            out := out + [HandshakeResync];
            resyncSent := true;
          }
        case _ =>
      }
    }
  }

  // ----- Framed syncs

  function AfterUpdates(v: View, us: seq<Update>): View
    decreases |us|
  {
    if us == [] then v else AfterUpdates(AfterUpdate(v, us[0]), us[1..])
  }

  lemma {:induction false} AfterUpdatesAppend(v: View, a: seq<Update>, b: seq<Update>)
    ensures AfterUpdates(v, a + b) == AfterUpdates(AfterUpdates(v, a), b)
    decreases |a|
  {
    if a == [] {
      assert a + b == b;
    } else {
      assert (a + b)[1..] == a[1..] + b;
      AfterUpdatesAppend(AfterUpdate(v, a[0]), a[1..], b);
    }
  }

  /** What a session should do, without keep sets or deferred deletes: while a sync is in flight, build a
      second copy from scratch, and put it in place of the live one when the sync ends. */
  datatype Replica = Replica(live: map<Key, Content>, sync: Option<map<Key, Content>>)

  function Building(r: Replica): map<Key, Content> {
    if r.sync.Some? then r.sync.value else map[]
  }

  function Follow(r: Replica, u: Update): Replica {
    if Terminal(u) then Replica(Building(r), None)
    else
      Replica(Replay(r.live, Items(u)),
              if u.fullSync || r.sync.Some? then Some(Replay(Building(r), Items(u))) else None)
  }

  function FollowAll(r: Replica, us: seq<Update>): Replica
    decreases |us|
  {
    if us == [] then r else FollowAll(Follow(r, us[0]), us[1..])
  }

  /** The copy under construction is the live part of the table inside the keep set. */
  function Abstract(v: View): Replica {
    Replica(Live(v.rows), if v.keep.Some? then Some(Restrict(Live(v.rows), v.keep.value)) else None)
  }

  lemma UpdateFollows(v: View, u: Update)
    ensures Abstract(AfterUpdate(v, u)) == Follow(Abstract(v), u)
  {
    var items := Items(u);
    ApplyingReplays(v.rows, items);
    assert Restrict(Live(v.rows), {}) == map[];
    RestrictReplay(Live(v.rows), KeepOf(v), items);
    if Terminal(u) {
      assert items == [];
      assert KeepOf(v) + Upserts(items) == KeepOf(v);
      DropMissingRestricts(v.rows, KeepOf(v));
    }
  }

  /** Upserting at once and deleting what is missing at the end refines building a fresh copy: over every
      series of chunks, terminal chunks and incremental updates, from any table, what is live is exactly
      what the two-copy replica says. */
  lemma {:induction false} SessionRefinesReplica(v: View, us: seq<Update>)
    ensures Abstract(AfterUpdates(v, us)) == FollowAll(Abstract(v), us)
    decreases |us|
  {
    if us != [] {
      UpdateFollows(v, us[0]);
      SessionRefinesReplica(AfterUpdate(v, us[0]), us[1..]);
    }
  }

  function AllItems(us: seq<Update>): seq<Item> {
    if us == [] then [] else Items(us[0]) + AllItems(us[1..])
  }

  predicate NoTerminal(us: seq<Update>) {
    forall i | 0 <= i < |us| :: !Terminal(us[i])
  }

  lemma {:induction false} FollowWithoutTerminal(r: Replica, us: seq<Update>)
    requires NoTerminal(us)
    ensures FollowAll(r, us).live == Replay(r.live, AllItems(us))
    ensures r.sync.Some? ==> FollowAll(r, us).sync == Some(Replay(r.sync.value, AllItems(us)))
    decreases |us|
  {
    if us != [] {
      FollowWithoutTerminal(Follow(r, us[0]), us[1..]);
      ReplayAppend(r.live, Items(us[0]), AllItems(us[1..]));
      ReplayAppend(Building(r), Items(us[0]), AllItems(us[1..]));
    }
  }

  lemma {:induction false} FollowAllAppend(r: Replica, a: seq<Update>, last: Update)
    ensures FollowAll(r, a + [last]) == Follow(FollowAll(r, a), last)
    decreases |a|
  {
    if a == [] {
      assert a + [last] == [last] && [last][1..] == [];
    } else {
      assert (a + [last])[1..] == a[1..] + [last];
      FollowAllAppend(Follow(r, a[0]), a[1..], last);
    }
  }

  /** A framed full sync is a replay from scratch. Whatever the table held, after the terminal chunk the
      live capabilities are all items of the chunks and of the incremental updates among them, in order,
      over the empty set; and the terminal chunk alone, with no sync in flight, clears the table. */
  lemma FramedSyncIsAReplay(v: View, us: seq<Update>, last: Update)
    requires v.keep.None? && NoTerminal(us) && (us != [] ==> us[0].fullSync) && Terminal(last)
    ensures Live(AfterUpdates(v, us + [last]).rows) == Replay(map[], AllItems(us))
    ensures AfterUpdates(v, us + [last]).keep.None?
  {
    SessionRefinesReplica(v, us + [last]);
    FollowAllAppend(Abstract(v), us, last);
    var r := Abstract(v);
    if us != [] {
      var first := Follow(r, us[0]);
      FollowWithoutTerminal(first, us[1..]);
      ReplayAppend(map[], Items(us[0]), AllItems(us[1..]));
    }
    AfterUpdatesAppend(v, us, [last]);
    assert [last][1..] == [];
  }

  lemma {:induction false} ReplayLosesOnlyDeleted(live: map<Key, Content>, items: seq<Item>, k: Key)
    requires k in live && k !in Replay(live, items)
    ensures Delete(k) in items
    decreases |items|
  {
    if items[0] != Delete(k) {
      ReplayLosesOnlyDeleted(Put(live, items[0]), items[1..], k);
      assert items == [items[0]] + items[1..];
    }
  }

  /** A sync whose terminal chunk never comes takes nothing away: a capability that was live and is not
      any more was deleted by an explicit delete item. */
  lemma AbandonedSyncLosesNothing(v: View, us: seq<Update>, k: Key)
    requires NoTerminal(us) && k in Live(v.rows) && k !in Live(AfterUpdates(v, us).rows)
    ensures Delete(k) in AllItems(us)
  {
    SessionRefinesReplica(v, us);
    FollowWithoutTerminal(Abstract(v), us);
    ReplayLosesOnlyDeleted(Live(v.rows), AllItems(us), k);
  }

  lemma {:induction false} AllUnknownMapsToNothing(capabilities: seq<WireCapability>)
    requires forall i | 0 <= i < |capabilities| :: capabilities[i].key.kind.Unknown?
    ensures MapUpdate(capabilities) == []
  {
    if capabilities != [] {
      AllUnknownMapsToNothing(capabilities[1..]);
    }
  }

  /** A chunk made only of kinds this server does not know is a data chunk: it ends no sync, and deletes
      and commits nothing. */
  lemma UnknownChunkIsNotTerminal(v: View, u: Update)
    requires u.fullSync && u.capabilities != []
    requires forall i | 0 <= i < |u.capabilities| :: u.capabilities[i].key.kind.Unknown?
    ensures AfterUpdate(v, u) == v.(keep := Some(KeepOf(v)))
  {
    AllUnknownMapsToNothing(u.capabilities);
    assert KeepOf(v) + {} == KeepOf(v);
  }

  // ----- Checksums

  function AfterEvents(v: View, es: seq<Event>): View
    decreases |es|
  {
    if es == [] then v else AfterEvents(AfterEvent(v, es[0]), es[1..])
  }

  /** Along any session the cached checksum is the stored one. */
  lemma {:induction false} CachedIsStored(v: View, es: seq<Event>)
    requires v.cached == v.stored
    ensures AfterEvents(v, es).cached == AfterEvents(v, es).stored
    decreases |es|
  {
    if es != [] {
      CachedIsStored(AfterEvent(v, es[0]), es[1..]);
    }
  }

  /** Events that can change the stored checksum. */
  predicate Commits(v: View, e: Event) {
    match e.body
    case CapabilityUpdate(u) => u.checksum != "" && (Terminal(u) || (!u.fullSync && v.keep.None?))
    case ResyncResponse(checksum) => checksum != ""
    case _ => false
  }

  /** The stored checksum changes exactly by those, to the one they carry; in particular, an incremental
      update that lands inside a sync never commits its own. */
  lemma ChecksumChangesOnlyByCommit(v: View, e: Event)
    ensures !Commits(v, e) ==> AfterEvent(v, e).stored == v.stored
    ensures Commits(v, e) ==>
              AfterEvent(v, e).stored == if e.body.CapabilityUpdate? then e.body.update.checksum else e.body.checksum
    ensures v.keep.Some? && e.body.CapabilityUpdate? && !Terminal(e.body.update) ==> !Commits(v, e)
  {
  }

  // ----- The agent's side

  type AgentState = map<WireKey, WireContent>

  function PutWire(agent: AgentState, c: WireCapability): AgentState {
    if c.action.ActionDelete? then agent - {c.key} else agent[c.key := c.content]
  }

  function ReplayWire(agent: AgentState, capabilities: seq<WireCapability>): AgentState
    decreases |capabilities|
  {
    if capabilities == [] then agent else ReplayWire(PutWire(agent, capabilities[0]), capabilities[1..])
  }

  /** The part of an agent's state that this server can hold. */
  function Visible(agent: AgentState): map<Key, Content> {
    map k | k in agent && k.kind.Known? :: MapKey(k) := MapContent(agent[k])
  }

  lemma VisiblePut(agent: AgentState, c: WireCapability)
    ensures Visible(PutWire(agent, c)) ==
            if c.key.kind.Known? then Put(Visible(agent), MapItem(c)) else Visible(agent)
  {
    var after := PutWire(agent, c);
    var want := if c.key.kind.Known? then Put(Visible(agent), MapItem(c)) else Visible(agent);
    forall key: Key ensures key in Visible(after) <==> key in want
                    ensures key in want ==> Visible(after)[key] == want[key] {
      var wire := WireKey(Known(key.kind), key.group, key.name, key.version);
      assert MapKey(wire) == key;
      assert wire in after <==> key in Visible(after);
      assert wire in agent <==> key in Visible(agent);
    }
  }

  lemma {:induction false} VisibleReplay(agent: AgentState, capabilities: seq<WireCapability>)
    ensures Visible(ReplayWire(agent, capabilities)) == Replay(Visible(agent), MapUpdate(capabilities))
    decreases |capabilities|
  {
    if capabilities != [] {
      var first := if capabilities[0].key.kind.Known? then [MapItem(capabilities[0])] else [];
      VisiblePut(agent, capabilities[0]);
      VisibleReplay(PutWire(agent, capabilities[0]), capabilities[1..]);
      ReplayAppend(Visible(agent), first, MapUpdate(capabilities[1..]));
      if first != [] {
        assert first[1..] == [];
      }
    }
  }

  function Joined(us: seq<Update>): seq<WireCapability> {
    if us == [] then [] else us[0].capabilities + Joined(us[1..])
  }

  lemma {:induction false} JoinedItems(us: seq<Update>)
    ensures MapUpdate(Joined(us)) == AllItems(us)
  {
    if us != [] {
      MapUpdateAppend(us[0].capabilities, Joined(us[1..]));
      JoinedItems(us[1..]);
    }
  }

  /** Server and agent agree: everything visible is live, under the agent's checksum. */
  predicate Agrees(v: View, agent: AgentState, hash: AgentState -> string) {
    v.keep.None? && Live(v.rows) == Visible(agent) && v.stored == hash(agent) && v.cached == hash(agent)
  }

  /** A full sync that nothing interrupts establishes agreement, from any table. */
  lemma SyncEstablishesAgreement(v: View, chunks: seq<Update>, last: Update, agent: AgentState, hash: AgentState -> string)
    requires v.keep.None? && hash(agent) != ""
    requires forall i | 0 <= i < |chunks| :: chunks[i].fullSync && chunks[i].capabilities != []
    requires ReplayWire(map[], Joined(chunks)) == agent
    requires Terminal(last) && last.checksum == hash(agent)
    ensures Agrees(AfterUpdates(v, chunks + [last]), agent, hash)
  {
    FramedSyncIsAReplay(v, chunks, last);
    JoinedItems(chunks);
    VisibleReplay(map[], Joined(chunks));
    AfterUpdatesAppend(v, chunks, [last]);
    assert [last][1..] == [];
  }

  /** The incremental updates of an agent: each carries a change and the checksum after it. */
  function Reports(agent: AgentState, changes: seq<seq<WireCapability>>, hash: AgentState -> string): seq<Update>
    decreases |changes|
  {
    if changes == [] then []
    else
      var next := ReplayWire(agent, changes[0]);
      [Update(false, changes[0], hash(next))] + Reports(next, changes[1..], hash)
  }

  function Changed(agent: AgentState, changes: seq<seq<WireCapability>>): AgentState
    decreases |changes|
  {
    if changes == [] then agent else Changed(ReplayWire(agent, changes[0]), changes[1..])
  }

  /** Agreement is kept by every later incremental update. */
  lemma {:induction false} UpdatesKeepAgreement(v: View, agent: AgentState, changes: seq<seq<WireCapability>>, hash: AgentState -> string)
    requires Agrees(v, agent, hash) && forall a: AgentState :: hash(a) != ""
    ensures Agrees(AfterUpdates(v, Reports(agent, changes, hash)), Changed(agent, changes), hash)
    decreases |changes|
  {
    if changes != [] {
      var next := ReplayWire(agent, changes[0]);
      var u := Update(false, changes[0], hash(next));
      ApplyingReplays(v.rows, Items(u));
      VisibleReplay(agent, changes[0]);
      UpdatesKeepAgreement(AfterUpdate(v, u), next, changes[1..], hash);
      var reports := Reports(agent, changes, hash);
      assert reports[0] == u && reports[1..] == Reports(next, changes[1..], hash);
    }
  }

  /** An agent that comes back is asked to resync exactly when both sides know a checksum and the two
      differ; so with agreement it is asked exactly if its own checksum has changed meanwhile. */
  lemma HandshakeAsksWhenStale(v: View, sequence: int, lastSeen: string, agent: AgentState, hash: AgentState -> string)
    requires Agrees(v, agent, hash) && hash(agent) != "" && lastSeen != ""
    ensures HandshakeResync in Replies(v, Event(sequence, Handshake(lastSeen))) <==> lastSeen != hash(agent)
    ensures lastSeen != hash(agent) ==> AfterEvent(v, Event(sequence, Handshake(lastSeen))).resyncSent
  {
    var out := Replies(v, Event(sequence, Handshake(lastSeen)));
    if Stale(v, lastSeen) {
      assert out[|out| - 1] == HandshakeResync;
    }
  }

  // ----- Sequence gaps

  /** The gap requests a session sends over a run. */
  function GapRequests(v: View, es: seq<Event>): nat
    decreases |es|
  {
    if es == [] then 0
    else (if GapFound(v, es[0].sequence) then 1 else 0) + GapRequests(AfterEvent(v, es[0]), es[1..])
  }

  predicate NoResponse(es: seq<Event>) {
    forall i | 0 <= i < |es| :: !es[i].body.ResyncResponse?
  }

  /** Until the agent answers there is at most one gap request outstanding, and none if a resync was
      already asked for. */
  lemma {:induction false} OneGapRequestAtATime(v: View, es: seq<Event>)
    requires NoResponse(es)
    ensures GapRequests(v, es) <= if v.resyncSent then 0 else 1
    decreases |es|
  {
    if es != [] {
      OneGapRequestAtATime(AfterEvent(v, es[0]), es[1..]);
    }
  }

  /** Numbered in a row from what the session expects; unnumbered events may come between. */
  predicate InSequence(expected: int, es: seq<Event>)
    decreases |es|
  {
    es == [] ||
    if es[0].sequence <= 0 then InSequence(expected, es[1..])
    else (expected <= 0 || es[0].sequence == expected) && InSequence(es[0].sequence + 1, es[1..])
  }

  /** Between answers, a gap is reported exactly when there is one. */
  lemma {:induction false} GapsAreReportedExactly(v: View, es: seq<Event>)
    requires NoResponse(es) && !v.resyncSent
    requires forall i | 0 <= i < |es| :: !es[i].body.Handshake?
    ensures GapRequests(v, es) == 0 <==> InSequence(v.expected, es)
    decreases |es|
  {
    if es != [] {
      var next := AfterEvent(v, es[0]);
      if GapFound(v, es[0].sequence) {
      } else {
        GapsAreReportedExactly(next, es[1..]);
      }
    }
  }

  // ----- What is sent back

  /** A gap is reported with the number that was expected and the one that came; every handshake is answered,
      with the demand for a resync in the answer exactly if one is also sent; nothing else is sent. */
  lemma RepliesSpelledOut(v: View, e: Event)
    ensures var gap := e.sequence > 0 && v.expected > 0 && e.sequence != v.expected && !v.resyncSent;
            var demand := e.body.Handshake? && e.body.lastSeenChecksum != "" && v.cached != "" && e.body.lastSeenChecksum != v.cached;
            var out := Replies(v, e);
            && (GapResync(v.expected, e.sequence) in out <==> gap)
            && (HandshakeResponse(demand) in out <==> e.body.Handshake?)
            && (HandshakeResync in out <==> demand)
            && |out| == (if gap then 1 else 0) + (if e.body.Handshake? then 1 else 0) + (if demand then 1 else 0)
  {
    var out := Replies(v, e);
    var first := if GapFound(v, e.sequence) then 1 else 0;
    if GapFound(v, e.sequence) {
      assert out[0] == GapResync(v.expected, e.sequence);
    }
    if e.body.Handshake? {
      assert out[first] == HandshakeResponse(Stale(v, e.body.lastSeenChecksum));
      if Stale(v, e.body.lastSeenChecksum) {
        assert out[first + 1] == HandshakeResync;
      }
    }
  }
}
