/** What an agent reports its cluster can do: the stored projection, and the items that update it. */
module Capabilities {
  import opened Wrappers

  datatype Kind = Crd | OlmCsv | CrossplaneXrd | CrossplaneProvider | KroRgd | HelmRelease | ClusterAddon | ClusterMetadata

  /** A kind on the wire; an older or newer agent may send one this server does not know. */
  datatype WireKind = Known(kind: Kind) | Unknown(number: int)

  datatype Mode = ObserveOnly | Adopt | Ignore

  datatype WireMode = ModeUnspecified | ModeObserveOnly | ModeAdopt | ModeIgnore | ModeUnknown(number: int)

  datatype WireAction = ActionUnspecified | ActionUpsert | ActionDelete | ActionUnknown(number: int)

  datatype Key = Key(kind: Kind, group: string, name: string, version: string)

  datatype Content = Content(schema: string, uiHints: string, mode: Mode)

  datatype Item = Upsert(key: Key, content: Content) | Delete(key: Key)

  datatype WireKey = WireKey(kind: WireKind, group: string, name: string, version: string)

  datatype WireContent = WireContent(schema: string, uiHints: string, mode: WireMode)

  datatype WireCapability = WireCapability(key: WireKey, content: WireContent, action: WireAction)

  /** A row stays in the table when its capability is deleted. */
  datatype Row = Row(content: Content, live: bool)

  type Rows = map<Key, Row>

  // ----- From the wire

  function MapMode(mode: WireMode): Mode {
    match mode
    case ModeAdopt => Adopt
    case ModeIgnore => Ignore
    case _ => ObserveOnly
  }

  function MapContent(c: WireContent): Content {
    Content(c.schema, c.uiHints, MapMode(c.mode))
  }

  function MapKey(key: WireKey): Key
    requires key.kind.Known?
  {
    Key(key.kind.kind, key.group, key.name, key.version)
  }

  function MapItem(c: WireCapability): Item
    requires c.key.kind.Known?
  {
    if c.action.ActionDelete? then Delete(MapKey(c.key)) else Upsert(MapKey(c.key), MapContent(c.content))
  }

  /** Capabilities of kinds this server does not know are dropped. */
  function MapUpdate(capabilities: seq<WireCapability>): seq<Item> {
    if capabilities == [] then [] else MapOne(capabilities[0]) + MapUpdate(capabilities[1..])
  }

  function MapOne(c: WireCapability): seq<Item> {
    if c.key.kind.Known? then [MapItem(c)] else []
  }

  lemma {:induction false} MapUpdateAppend(a: seq<WireCapability>, b: seq<WireCapability>)
    ensures MapUpdate(a + b) == MapUpdate(a) + MapUpdate(b)
  {
    hide MapOne;
    if a == [] {
      assert a + b == b;
    } else {
      assert (a + b)[1..] == a[1..] + b && (a + b)[0] == a[0];
      MapUpdateAppend(a[1..], b);
      assert (MapOne(a[0]) + MapUpdate(a[1..])) + MapUpdate(b) == MapOne(a[0]) + (MapUpdate(a[1..]) + MapUpdate(b));
    }
  }

  method MapCapabilityUpdate(capabilities: seq<WireCapability>) returns (items: seq<Item>)
    ensures items == MapUpdate(capabilities)
  {
    items := [];
    for i := 0 to |capabilities|
      invariant items == MapUpdate(capabilities[..i])
    {
      assert capabilities[..i + 1] == capabilities[..i] + [capabilities[i]];
      MapUpdateAppend(capabilities[..i], [capabilities[i]]);
      if !capabilities[i].key.kind.Known? {
        continue;
      }
      items := items + [MapItem(capabilities[i])];
    }
    assert capabilities[..|capabilities|] == capabilities;
  }

  // ----- Meaning of items: what is live

  function Put(live: map<Key, Content>, item: Item): map<Key, Content> {
    match item
    case Upsert(key, content) => live[key := content]
    case Delete(key) => live - {key}
  }

  /** The items, in order, over a set of capabilities. */
  function Replay(live: map<Key, Content>, items: seq<Item>): map<Key, Content>
    decreases |items|
  {
    if items == [] then live else Replay(Put(live, items[0]), items[1..])
  }

  lemma {:induction false} ReplayAppend(live: map<Key, Content>, a: seq<Item>, b: seq<Item>)
    ensures Replay(live, a + b) == Replay(Replay(live, a), b)
    decreases |a|
  {
    if a == [] {
      assert a + b == b;
    } else {
      assert (a + b)[1..] == a[1..] + b;
      ReplayAppend(Put(live, a[0]), a[1..], b);
    }
  }

  function Live(rows: Rows): map<Key, Content> {
    map k | k in rows && rows[k].live :: rows[k].content
  }

  // ----- The stored table

  function ApplyItem(rows: Rows, item: Item): Rows {
    match item
    case Upsert(key, content) => rows[key := Row(content, true)]
    case Delete(key) => if key in rows then rows[key := rows[key].(live := false)] else rows
  }

  function ApplyItems(rows: Rows, items: seq<Item>): Rows
    decreases |items|
  {
    if items == [] then rows else ApplyItems(ApplyItem(rows, items[0]), items[1..])
  }

  lemma {:induction false} ApplyItemsAppend(rows: Rows, a: seq<Item>, b: seq<Item>)
    ensures ApplyItems(rows, a + b) == ApplyItems(ApplyItems(rows, a), b)
    decreases |a|
  {
    if a == [] {
      assert a + b == b;
    } else {
      assert (a + b)[1..] == a[1..] + b;
      ApplyItemsAppend(ApplyItem(rows, a[0]), a[1..], b);
    }
  }

  /** The table means what it should: applying items to rows replays them over what is live, and no row
      is ever taken out of the table. */
  lemma {:induction false} ApplyingReplays(rows: Rows, items: seq<Item>)
    ensures Live(ApplyItems(rows, items)) == Replay(Live(rows), items)
    ensures rows.Keys <= ApplyItems(rows, items).Keys
    decreases |items|
  {
    if items != [] {
      assert Live(ApplyItem(rows, items[0])) == Put(Live(rows), items[0]);
      ApplyingReplays(ApplyItem(rows, items[0]), items[1..]);
    }
  }

  /** The keys a sync has brought, for its delete-missing pass. */
  function Upserts(items: seq<Item>): set<Key> {
    if items == [] then {}
    else (if items[0].Upsert? then {items[0].key} else {}) + Upserts(items[1..])
  }

  lemma {:induction false} UpsertsAppend(a: seq<Item>, b: seq<Item>)
    ensures Upserts(a + b) == Upserts(a) + Upserts(b)
  {
    if a == [] {
      assert a + b == b;
    } else {
      assert (a + b)[1..] == a[1..] + b;
      UpsertsAppend(a[1..], b);
    }
  }

  function DropMissing(rows: Rows, keep: set<Key>): Rows {
    map k | k in rows :: if k in keep then rows[k] else rows[k].(live := false)
  }

  lemma DropsOnlyTheStale(rows: Rows, keep: set<Key>)
    ensures DropMissing(rows, rows.Keys - (Live(rows).Keys - keep)) == DropMissing(rows, keep)
    ensures DropMissing(rows, rows.Keys) == rows
  {
    forall k | k in rows ensures k !in keep && k !in Live(rows) ==> rows[k] == rows[k].(live := false) {
    }
  }

  lemma DropOneMore(rows: Rows, dropped: set<Key>, k: Key)
    ensures DropMissing(rows, rows.Keys - (dropped + {k})) == ApplyItem(DropMissing(rows, rows.Keys - dropped), Delete(k))
  {
  }

  function Restrict(live: map<Key, Content>, keep: set<Key>): map<Key, Content> {
    map k | k in live && k in keep :: live[k]
  }

  lemma DropMissingRestricts(rows: Rows, keep: set<Key>)
    ensures Live(DropMissing(rows, keep)) == Restrict(Live(rows), keep)
  {
  }

  /** Replaying over the part of a table that a sync has touched so far is the same as replaying over the
      whole table and looking at the part it has touched then. */
  lemma {:induction false} RestrictReplay(live: map<Key, Content>, keep: set<Key>, items: seq<Item>)
    ensures Restrict(Replay(live, items), keep + Upserts(items)) == Replay(Restrict(live, keep), items)
    decreases |items|
  {
    if items == [] {
      assert keep + Upserts(items) == keep;
    } else {
      var first := if items[0].Upsert? then {items[0].key} else {};
      assert Restrict(Put(live, items[0]), keep + first) == Put(Restrict(live, keep), items[0]);
      RestrictReplay(Put(live, items[0]), keep + first, items[1..]);
      assert keep + Upserts(items) == (keep + first) + Upserts(items[1..]);
    }
  }

  function UpsertCount(items: seq<Item>): nat {
    if items == [] then 0 else (if items[0].Upsert? then 1 else 0) + UpsertCount(items[1..])
  }

  lemma {:induction false} UpsertCountAppend(a: seq<Item>, b: seq<Item>)
    ensures UpsertCount(a + b) == UpsertCount(a) + UpsertCount(b)
  {
    if a == [] {
      assert a + b == b;
    } else {
      assert (a + b)[1..] == a[1..] + b;
      UpsertCountAppend(a[1..], b);
    }
  }

  /** How many of the items deleted something that was live. */
  function DeleteCount(live: map<Key, Content>, items: seq<Item>): nat
    decreases |items|
  {
    if items == [] then 0
    else (if items[0].Delete? && items[0].key in live then 1 else 0) + DeleteCount(Put(live, items[0]), items[1..])
  }

  lemma {:induction false} DeleteCountAppend(live: map<Key, Content>, items: seq<Item>, last: Item)
    ensures DeleteCount(live, items + [last])
         == DeleteCount(live, items) + (if last.Delete? && last.key in Replay(live, items) then 1 else 0)
    decreases |items|
  {
    if items == [] {
      assert items + [last] == [last] && [last][1..] == [];
    } else {
      assert (items + [last])[1..] == items[1..] + [last];
      DeleteCountAppend(Put(live, items[0]), items[1..], last);
    }
  }

  /** The record written with every ingest and every finished sync. */
  datatype Ingested = Ingested(upserted: nat, deleted: nat, fullSync: bool, checksum: string)

  function Committed(stored: string, checksum: string): string {
    if checksum != "" then checksum else stored
  }

  /** One cluster's part of the capability tables. Each method is one transaction. */
  class Store {
    var rows: Rows
    var checksum: string
    var outbox: seq<Ingested>

    constructor ()
      ensures rows == map[] && checksum == "" && outbox == []
    {
      rows, checksum, outbox := map[], "", [];
    }

    method UpsertRow(key: Key, content: Content)
      modifies this`rows
      ensures rows == ApplyItem(old(rows), Upsert(key, content))
    {
      rows := rows[key := Row(content, true)];
    }

    method SoftDelete(key: Key) returns (deleted: bool)
      modifies this`rows
      ensures rows == ApplyItem(old(rows), Delete(key))
      ensures deleted <==> key in Live(old(rows))
    {
      deleted := key in rows && rows[key].live;
      if deleted {
        rows := rows[key := rows[key].(live := false)];
      }
    }

    method ApplyAll(items: seq<Item>) returns (upserted: nat, deleted: nat)
      modifies this`rows
      ensures rows == ApplyItems(old(rows), items)
      ensures upserted == UpsertCount(items) && deleted == DeleteCount(Live(old(rows)), items)
    {
      upserted, deleted := 0, 0;
      for i := 0 to |items|
        invariant rows == ApplyItems(old(rows), items[..i])
        invariant upserted == UpsertCount(items[..i]) && deleted == DeleteCount(Live(old(rows)), items[..i])
      {
        assert items[..i + 1] == items[..i] + [items[i]];
        ApplyItemsAppend(old(rows), items[..i], [items[i]]);
        UpsertCountAppend(items[..i], [items[i]]);
        ApplyingReplays(old(rows), items[..i]);
        DeleteCountAppend(Live(old(rows)), items[..i], items[i]);
        assert [items[i]][1..] == [];
        match items[i] {
          case Delete(key) =>
            var ok := SoftDelete(key);
            if ok {
              deleted := deleted + 1;
            }
          case Upsert(key, content) =>
            UpsertRow(key, content);
            upserted := upserted + 1;
        }
      }
      assert items[..|items|] == items;
    }

    /** Soft-delete every live row that is not kept, and nothing else. */
    method SoftDeleteMissing(keep: set<Key>) returns (deleted: nat)
      modifies this`rows
      ensures rows == DropMissing(old(rows), keep)
      ensures deleted == |Live(old(rows)).Keys - keep|
    {
      hide DropMissing, ApplyItem, Live;
      var stale := Live(rows).Keys - keep;
      deleted := |stale|;
      DropsOnlyTheStale(rows, keep);
      var left := stale;
      ghost var dropped: set<Key> := {};
      assert rows.Keys - {} == rows.Keys;
      while left != {}
        invariant stale == dropped + left && dropped !! left
        invariant rows == DropMissing(old(rows), old(rows).Keys - dropped)
        decreases |left|
      {
        var k :| k in left;
        DropOneMore(old(rows), dropped, k);
        var gone := SoftDelete(k);
        dropped, left := dropped + {k}, left - {k};
      }
      assert dropped == stale;
    }

    method Ingest(items: seq<Item>, newChecksum: string)
      modifies this
      ensures rows == ApplyItems(old(rows), items) && checksum == Committed(old(checksum), newChecksum)
      ensures outbox == old(outbox) + [Ingested(UpsertCount(items), DeleteCount(Live(old(rows)), items), false, newChecksum)]
    {
      var upserted, deleted := ApplyAll(items);
      if newChecksum != "" {
        checksum := newChecksum;
      }
      outbox := outbox + [Ingested(upserted, deleted, false, newChecksum)];
    }

    method IngestChunk(items: seq<Item>) returns (upserted: nat)
      modifies this`rows
      ensures rows == ApplyItems(old(rows), items) && upserted == UpsertCount(items)
    {
      var deleted;
      upserted, deleted := ApplyAll(items);
    }

    method FinalizeSync(keep: set<Key>, newChecksum: string, upserted: nat)
      modifies this
      ensures rows == DropMissing(old(rows), keep) && checksum == Committed(old(checksum), newChecksum)
      ensures outbox == old(outbox) + [Ingested(upserted, |Live(old(rows)).Keys - keep|, true, newChecksum)]
    {
      var deleted := SoftDeleteMissing(keep);
      if newChecksum != "" {
        checksum := newChecksum;
      }
      outbox := outbox + [Ingested(upserted, deleted, true, newChecksum)];
    }
  }

  // ----- What is kept of what the wire says

  /** An item is a deletion exactly if the wire says so, and is about what the wire names; the mode is the one
      named, and observing only where none or an unknown one is. */
  lemma MappingKeepsWhatIsSaid(c: WireCapability)
    requires c.key.kind.Known?
    ensures var item := MapItem(c);
            && (item.Delete? <==> c.action == ActionDelete)
            && item.key.kind == c.key.kind.kind && item.key.group == c.key.group
            && item.key.name == c.key.name && item.key.version == c.key.version
            && (item.Upsert? ==>
                  && item.content.schema == c.content.schema && item.content.uiHints == c.content.uiHints
                  && (item.content.mode == Adopt <==> c.content.mode == ModeAdopt)
                  && (item.content.mode == Ignore <==> c.content.mode == ModeIgnore))
  {
  }

  /** How an agent that knows what this server knows writes an item. */
  function WireOf(item: Item): WireCapability {
    var key := WireKey(Known(item.key.kind), item.key.group, item.key.name, item.key.version);
    match item
    case Delete(_) => WireCapability(key, WireContent("", "", ModeUnspecified), ActionDelete)
    case Upsert(_, content) =>
      var mode := match content.mode case ObserveOnly => ModeObserveOnly case Adopt => ModeAdopt case Ignore => ModeIgnore;
      WireCapability(key, WireContent(content.schema, content.uiHints, mode), ActionUpsert)
  }

  function WireOfAll(items: seq<Item>): seq<WireCapability> {
    if items == [] then [] else [WireOf(items[0])] + WireOfAll(items[1..])
  }

  /** Items survive the wire, in order and with all they say. */
  lemma {:induction false} WireRoundTrip(items: seq<Item>)
    ensures MapUpdate(WireOfAll(items)) == items
  {
    if items != [] {
      var wire := WireOfAll(items);
      WireRoundTrip(items[1..]);
      assert MapItem(WireOf(items[0])) == items[0];
      assert wire[0] == WireOf(items[0]) && wire[1..] == WireOfAll(items[1..]);
      assert items == [items[0]] + items[1..];
    }
  }

  // ----- What the counts count

  function UpsertsAt(items: seq<Item>): set<int> {
    set i | 0 <= i < |items| && items[i].Upsert?
  }

  function DeletesAt(live: map<Key, Content>, items: seq<Item>): set<int> {
    set i | 0 <= i < |items| && items[i].Delete? && items[i].key in Replay(live, items[..i])
  }

  lemma UpsertsAtAppend(items: seq<Item>, last: Item)
    ensures UpsertsAt(items + [last]) == UpsertsAt(items) + (if last.Upsert? then {|items|} else {})
  {
  }

  lemma DeletesAtAppend(live: map<Key, Content>, items: seq<Item>, last: Item)
    ensures DeletesAt(live, items + [last])
         == DeletesAt(live, items) + (if last.Delete? && last.key in Replay(live, items) then {|items|} else {})
  {
    assert (items + [last])[..|items|] == items;
    assert forall i | 0 <= i < |items| :: (items + [last])[..i] == items[..i];
  }

  /** The counts of a record: the items that upsert, and those that delete something live at that point. */
  lemma {:induction false} CountsAreOfItems(live: map<Key, Content>, items: seq<Item>)
    ensures UpsertCount(items) == |UpsertsAt(items)| && DeleteCount(live, items) == |DeletesAt(live, items)|
  {
    if items == [] {
      assert UpsertsAt(items) == {} && DeletesAt(live, items) == {};
    } else {
      hide UpsertCount, DeleteCount, UpsertsAt, DeletesAt, Replay;
      var n := |items| - 1;
      var last := items[n];
      assert items == items[..n] + [last];
      CountsAreOfItems(live, items[..n]);
      UpsertCountAppend(items[..n], [last]);
      DeleteCountAppend(live, items[..n], last);
      UpsertsAtAppend(items[..n], last);
      DeletesAtAppend(live, items[..n], last);
      OneUpsert(last);
      BelowTheirEnd(live, items[..n]);
    }
  }

  lemma OneUpsert(last: Item)
    ensures UpsertCount([last]) == if last.Upsert? then 1 else 0
  {
    assert [last][1..] == [];
  }

  lemma BelowTheirEnd(live: map<Key, Content>, items: seq<Item>)
    ensures |items| !in UpsertsAt(items) && |items| !in DeletesAt(live, items)
  {
  }
}
