/** The in-process cache: a bounded map with expiry on read, sweeping and eviction on insertion. */
module MemoryCache {
  import opened Wrappers
  import opened Text

  const DEFAULT_MAX_ENTRIES := 10000

  /** An entry without an expiry time never expires. */
  datatype Entry = Entry(value: string, expires: Option<int>)

  type Entries = map<string, Entry>

  predicate Expired(e: Entry, now: int) {
    e.expires.Some? && now > e.expires.value
  }

  function Unexpired(entries: Entries, now: int): Entries {
    map k | k in entries && !Expired(entries[k], now) :: entries[k]
  }

  function Lookup(entries: Entries, key: string, now: int): Option<string> {
    if key in entries && !Expired(entries[key], now) then Some(entries[key].value) else None
  }

  /** Reading an expired entry drops it. */
  function AfterGet(entries: Entries, key: string, now: int): Entries {
    if key in entries && Expired(entries[key], now) then entries - {key} else entries
  }

  function EntryFor(value: string, ttl: int, now: int): Entry {
    Entry(value, if ttl > 0 then Some(now + ttl) else None)
  }

  function Next(n: int): int {
    if n == MAX_INT64 then MIN_INT64 else n + 1
  }

  /** The counter after an increment; None when the key holds something that is not an integer. */
  function Incremented(entries: Entries, key: string, now: int): Option<int> {
    match Lookup(entries, key, now)
    case None => Some(1)
    case Some(text) =>
      match Atoi(text)
      case None => None
      case Some(n) => Some(Next(n))
  }

  function AfterIncrement(entries: Entries, key: string, now: int): Entries {
    match Incremented(entries, key, now)
    case None => entries
    case Some(n) => entries[key := Entry(FormatInt(n), None)]
  }

  /** What an insertion may leave: the new entry and, of the others, all unless the key is new and the
      cache is full; then the expired ones go and, if that is not enough, as many live ones as it takes,
      whichever these are. */
  predicate SetMayLeave(before: Entries, key: string, e: Entry, max: nat, now: int, after: Entries) {
    key in after && after[key] == e &&
    var rest := after - {key};
    if key in before || |before| < max then rest == before - {key}
    else
      var live := Unexpired(before, now);
      if |live| < max then rest == live
      else |after| == max && forall k | k in rest :: k in live && rest[k] == live[k]
  }

  class Memory {
    var entries: Entries
    const max: nat
    var now: int

    ghost predicate Valid()
      reads this
    {
      max > 0
    }

    constructor (maxEntries: int)
      ensures Valid() && entries == map[] && max == (if maxEntries <= 0 then DEFAULT_MAX_ENTRIES else maxEntries)
    {
      entries, now := map[], 0;
      max := if maxEntries <= 0 then DEFAULT_MAX_ENTRIES else maxEntries;
    }

    method SweepLocked()
      modifies this`entries
      ensures entries == Unexpired(old(entries), now)
    {
      var left := entries.Keys;
      while left != {}
        invariant left <= entries.Keys <= old(entries).Keys
        invariant forall k | k in old(entries) :: k in entries <==> k in left || !Expired(old(entries)[k], now)
        invariant forall k | k in entries :: entries[k] == old(entries)[k]
        decreases |left|
      {
        var k :| k in left;
        left := left - {k};
        if Expired(entries[k], now) {
          entries := entries - {k};
        }
      }
    }

    method Get(key: string) returns (value: Option<string>)
      modifies this`entries
      ensures value == Lookup(old(entries), key, now)
      ensures entries == AfterGet(old(entries), key, now) && Unexpired(entries, now) == Unexpired(old(entries), now)
    {
      if key !in entries {
        return None;
      }
      var e := entries[key];
      if Expired(e, now) {
        entries := entries - {key};
        return None;
      }
      return Some(e.value);
    }

    /** Drop arbitrary entries until there is room for one more. */
    method EvictLocked()
      requires Valid()
      modifies this`entries
      ensures forall k | k in entries :: k in old(entries) && entries[k] == old(entries)[k]
      ensures |entries| == if old(|entries|) < max then old(|entries|) else max - 1
    {
      while |entries| >= max
        invariant forall k | k in entries :: k in old(entries) && entries[k] == old(entries)[k]
        invariant |entries| <= old(|entries|)
        invariant |entries| < old(|entries|) ==> max - 1 <= |entries|
        decreases |entries|
      {
        var k :| k in entries;
        assert |entries.Keys - {k}| == |entries.Keys| - 1;
        assert (entries - {k}).Keys == entries.Keys - {k};
        entries := entries - {k};
      }
    }

    method Set(key: string, value: string, ttl: int)
      requires Valid()
      modifies this`entries
      ensures SetMayLeave(old(entries), key, EntryFor(value, ttl, now), max, now, entries)
    {
      if key !in entries && |entries| >= max {
        SweepLocked();
        EvictLocked();
      }
      ghost var room := entries;
      var e := Entry(value, None);
      if ttl > 0 {
        e := e.(expires := Some(now + ttl));
      }
      entries := entries[key := e];
      assert entries - {key} == room - {key};
      if key !in room {
        assert entries.Keys == room.Keys + {key};
        assert room - {key} == room;
      }
      if key !in old(entries) && |old(entries)| >= max && |Unexpired(old(entries), now)| < max {
        SameSizeSubmap(Unexpired(old(entries), now), room);
      }
    }

    method Delete(key: string)
      modifies this`entries
      ensures entries == old(entries) - {key}
    {
      entries := entries - {key};
    }

    method Increment(key: string) returns (n: Option<int>)
      modifies this`entries
      ensures n == Incremented(old(entries), key, now)
      ensures entries == AfterIncrement(old(entries), key, now)
    {
      var count := 0;
      if key in entries && !Expired(entries[key], now) {
        var read := Atoi(entries[key].value);
        if read.None? {
          return None;
        }
        count := read.value;
      }
      count := Next(count);
      entries := entries[key := Entry(FormatInt(count), None)];
      return Some(count);
    }
  }

  lemma SameSizeSubmap(big: Entries, small: Entries)
    requires forall k | k in small :: k in big && small[k] == big[k]
    requires |small| == |big|
    ensures small == big
  {
    if exists k :: k in big && k !in small {
      var k :| k in big && k !in small;
      SubsetSize(small.Keys, big.Keys - {k});
    }
  }

  lemma {:induction false} SubsetSize<T>(a: set<T>, b: set<T>)
    requires a <= b
    ensures |a| <= |b|
    decreases a
  {
    if a != {} {
      var x :| x in a;
      SubsetSize(a - {x}, b - {x});
    }
  }

  /** The live entries, other than the key's own, that an insertion threw out. */
  function Lost(before: Entries, key: string, now: int, after: Entries): set<string> {
    (Unexpired(before, now).Keys - {key}) - Unexpired(after, now).Keys
  }

  lemma LostFromFull(live: set<string>, rest: set<string>, max: nat)
    requires rest <= live && |rest| == max - 1 && |live| >= max
    ensures |live - rest| == |live| - (max - 1) && live - rest != {}
  {
    assert |live - rest| == |live| - |rest|;
  }

  lemma SetLosesNothing(before: Entries, key: string, e: Entry, max: nat, now: int, after: Entries)
    requires SetMayLeave(before, key, e, max, now, after)
    requires key in before || |before| < max || |Unexpired(before, now)| < max
    ensures Lost(before, key, now, after) == {}
  {
    forall k | k in Unexpired(before, now) && k != key ensures k in Unexpired(after, now) {
      assert k in after - {key};
    }
  }

  lemma SetLosesFromFull(before: Entries, key: string, e: Entry, max: nat, now: int, after: Entries)
    requires max > 0 && SetMayLeave(before, key, e, max, now, after)
    requires key !in before && |before| >= max && |Unexpired(before, now)| >= max
    ensures |Lost(before, key, now, after)| == |Unexpired(before, now)| - (max - 1) && Lost(before, key, now, after) != {}
  {
    var live, rest := Unexpired(before, now), after - {key};
    assert after.Keys == rest.Keys + {key};
    assert rest.Keys <= live.Keys;
    LostFromFull(live.Keys, rest.Keys, max);
    forall k ensures k in Lost(before, key, now, after) <==> k in live.Keys - rest.Keys {
      if k in live && k in after && k != key {
        assert k in rest && rest[k] == live[k];
      }
    }
    assert Lost(before, key, now, after) == live.Keys - rest.Keys;
  }

  /** An insertion loses a live entry exactly when the key is new and the cache is full of live entries,
      and then it loses exactly as many as leave room for the new one; a key already present is replaced
      in place, without evicting anything. */
  lemma SetEvictsOnlyWhenFull(before: Entries, key: string, e: Entry, max: nat, now: int, after: Entries)
    requires max > 0 && SetMayLeave(before, key, e, max, now, after)
    ensures var lost := Lost(before, key, now, after);
            && (lost == {} <==> key in before || |before| < max || |Unexpired(before, now)| < max)
            && (lost != {} ==> |lost| == |Unexpired(before, now)| - (max - 1))
  {
    if key in before || |before| < max || |Unexpired(before, now)| < max {
      SetLosesNothing(before, key, e, max, now, after);
    } else {
      SetLosesFromFull(before, key, e, max, now, after);
    }
  }

  /** An insertion that throws nothing live out. */
  predicate HasRoom(before: Entries, key: string, max: nat, now: int) {
    key in before || |before| < max || |Unexpired(before, now)| < max
  }

  lemma {:induction false} SubsetOfSize<T>(all: set<T>, n: nat) returns (part: set<T>)
    requires n <= |all|
    ensures part <= all && |part| == n
    decreases all
  {
    if n == |all| {
      part := all;
    } else {
      var x :| x in all;
      part := SubsetOfSize(all - {x}, n);
    }
  }

  /** A full cache of live entries may drop any one of them for a new key. */
  lemma FullCacheMayDrop(before: Entries, key: string, e: Entry, max: nat, now: int, victim: string) returns (after: Entries)
    requires max > 0 && !HasRoom(before, key, max, now) && victim in before && !Expired(before[victim], now)
    ensures SetMayLeave(before, key, e, max, now, after) && victim !in after
  {
    var live := Unexpired(before, now);
    assert victim in live && |live.Keys - {victim}| == |live| - 1;
    var part := SubsetOfSize(live.Keys - {victim}, max - 1);
    var rest := map k | k in part :: live[k];
    after := rest[key := e];
    assert rest.Keys == part && key !in rest && after.Keys == part + {key};
    assert after - {key} == rest;
  }

  /** A live entry is safe from the insertion of another key, whatever the cache chooses to throw out,
      exactly if there is room: the key is there already, or fewer entries, or fewer live ones, than the
      cache may hold. */
  lemma LiveEntrySafeExactly(before: Entries, key: string, e: Entry, max: nat, now: int, k: string)
    requires max > 0 && k in before && !Expired(before[k], now) && k != key
    ensures (forall after | SetMayLeave(before, key, e, max, now, after) :: k in after && after[k] == before[k])
            <==> HasRoom(before, key, max, now)
  {
    if HasRoom(before, key, max, now) {
      forall after | SetMayLeave(before, key, e, max, now, after) ensures k in after && after[k] == before[k] {
        LiveEntryStays(before, key, e, max, now, after, k);
      }
    } else {
      var after := FullCacheMayDrop(before, key, e, max, now, k);
    }
  }

  lemma LiveEntryStays(before: Entries, key: string, e: Entry, max: nat, now: int, after: Entries, k: string)
    requires max > 0 && SetMayLeave(before, key, e, max, now, after) && HasRoom(before, key, max, now)
    requires k in before && !Expired(before[k], now) && k != key
    ensures k in after && after[k] == before[k]
  {
    SetEvictsOnlyWhenFull(before, key, e, max, now, after);
    assert k in Unexpired(before, now) && k !in Lost(before, key, now, after);
    assert k in Unexpired(after, now);
    SetOnlyShrinks(before, key, e, max, now, after);
  }

  lemma SetOnlyShrinks(before: Entries, key: string, e: Entry, max: nat, now: int, after: Entries)
    requires SetMayLeave(before, key, e, max, now, after)
    ensures key in after && after[key] == e
    ensures forall k | k in after && k != key :: k in before && after[k] == before[k]
    ensures key in before || |before| < max ==> before.Keys <= after.Keys
  {
    var rest := after - {key};
    forall k | k in after && k != key ensures k in before && after[k] == before[k] {
      assert k in rest && rest[k] == after[k];
    }
    if key in before || |before| < max {
      forall k | k in before ensures k in after {
        assert k == key || k in rest;
      }
    }
  }

  /** An insertion is an eviction of the keys that are gone, followed by a plain update. */
  lemma SetIsEvictThenPut(before: Entries, key: string, e: Entry, max: nat, now: int, after: Entries)
    requires SetMayLeave(before, key, e, max, now, after)
    ensures after == (before - (before.Keys - after.Keys))[key := e]
    ensures key in before || |before| < max ==> before.Keys - after.Keys == {}
  {
    hide SetMayLeave;
    SetOnlyShrinks(before, key, e, max, now, after);
  }

  /** A value that was set is read back until its time is up, and not after. */
  lemma SetThenGet(before: Entries, key: string, value: string, ttl: int, max: nat, now: int, after: Entries, later: int)
    requires SetMayLeave(before, key, EntryFor(value, ttl, now), max, now, after)
    ensures Lookup(after, key, later) == if ttl <= 0 || later <= now + ttl then Some(value) else None
  {
  }

  function AfterCounts(entries: Entries, key: string, now: int, n: nat): Entries {
    if n == 0 then entries else AfterIncrement(AfterCounts(entries, key, now, n - 1), key, now)
  }

  /** Counting starts at one where there is nothing, goes up by one each time, and never expires. */
  lemma {:induction false} CountsUp(entries: Entries, key: string, now: int, n: nat, later: int)
    requires Lookup(entries, key, now).None? && 0 < n <= MAX_INT64
    ensures Lookup(AfterCounts(entries, key, now, n), key, later) == Some(FormatInt(n))
    ensures forall k | k in entries && k != key :: k in AfterCounts(entries, key, now, n) && AfterCounts(entries, key, now, n)[k] == entries[k]
  {
    if n == 1 {
      assert AfterCounts(entries, key, now, 0) == entries;
    } else {
      CountsUp(entries, key, now, n - 1, now);
      AtoiReadsFormatInt(n - 1);
    }
  }

  /** At the largest 64-bit number the count goes over to the smallest. */
  lemma CountWraps(entries: Entries, key: string, now: int)
    requires Lookup(entries, key, now) == Some(FormatInt(MAX_INT64))
    ensures Lookup(AfterIncrement(entries, key, now), key, now) == Some(FormatInt(MIN_INT64))
  {
    AtoiReadsFormatInt(MAX_INT64);
  }
}
