/** Cached authorization decisions: checks that take several steps each, interleaved with writes to the
    store, generation bumps, evictions, cache outages and other users of the same bounded cache. */
module DecisionCache {
  import opened Wrappers
  import opened Text
  import opened MemoryCache

  datatype Query = Query(user: string, relation: string, target: string)

  const KEY_PREFIX := "inari:fga:pep:"
  const GENERATION_KEY := KEY_PREFIX + "gen"

  function QueryText(q: Query): string {
    q.user + "|" + (q.relation + "|" + q.target)
  }

  function PepKey(gen: string, q: Query): string {
    KEY_PREFIX + (gen + ":" + QueryText(q))
  }

  /** A key that only decisions are cached under. */
  predicate IsDecisionKey(key: string) {
    HasPrefix(key, KEY_PREFIX) && key != GENERATION_KEY
  }

  lemma PepKeysDiffer(g: string, q: Query, h: string, p: Query)
    requires ':' !in g && ':' !in h && PepKey(g, q) == PepKey(h, p)
    ensures g == h && QueryText(q) == QueryText(p)
  {
    CancelPrefix(KEY_PREFIX, g + ":" + QueryText(q), h + ":" + QueryText(p));
    SplitAt(':', g, QueryText(q), h, QueryText(p));
  }

  lemma PepKeyIsDecisionKey(g: string, q: Query)
    ensures IsDecisionKey(PepKey(g, q))
  {
    assert PepKey(g, q)[|KEY_PREFIX| + |g|] == ':';
    assert forall i | |KEY_PREFIX| <= i < |GENERATION_KEY| :: GENERATION_KEY[i] != ':';
  }

  // ----- Which queries share a key

  /** A query in which the separator is nothing but a separator. */
  predicate Plain(q: Query) {
    '|' !in q.user && '|' !in q.relation && '|' !in q.target
  }

  lemma SeparatorsStand(q: Query)
    ensures var s := QueryText(q);
            s[|q.user|] == '|' && s[|q.user| + 1 + |q.relation|] == '|'
            && s[..|q.user|] == q.user && s[|q.user| + 1..][..|q.relation|] == q.relation
            && s[|q.user| + 1 + |q.relation| + 1..] == q.target
  {
    var s, rest := QueryText(q), q.relation + "|" + q.target;
    assert s == (q.user + "|") + rest && |q.user + "|"| == |q.user| + 1;
    assert s[|q.user| + 1..] == rest;
    assert rest == (q.relation + "|") + q.target;
    assert rest[|q.relation| + 1..] == q.target && s[|q.user| + 1..][|q.relation| + 1..] == s[|q.user| + 1 + |q.relation| + 1..];
  }

  lemma NoOtherSeparators(q: Query, i: nat)
    requires Plain(q) && i < |QueryText(q)| && QueryText(q)[i] == '|'
    ensures i == |q.user| || i == |q.user| + 1 + |q.relation|
  {
  }

  lemma PlainTextIsOwn(q: Query, p: Query)
    requires Plain(q) && QueryText(p) == QueryText(q)
    ensures p == q
  {
    SeparatorsStand(p);
    SeparatorsStand(q);
    NoOtherSeparators(q, |p.user|);
    NoOtherSeparators(q, |p.user| + 1 + |p.relation|);
  }

  lemma SplitOnce(s: string) returns (x: string, y: string)
    requires '|' in s
    ensures s == x + "|" + y && |x| < |s|
  {
    var i :| 0 <= i < |s| && s[i] == '|';
    x, y := s[..i], s[i + 1..];
  }

  /** A query with a separator inside can be read as another one. */
  lemma AnotherReading(q: Query) returns (p: Query)
    requires !Plain(q)
    ensures p != q && QueryText(p) == QueryText(q)
  {
    if '|' in q.user {
      var x, y := SplitOnce(q.user);
      p := Query(x, y + "|" + q.relation, q.target);
      assert QueryText(p) == x + "|" + y + "|" + q.relation + "|" + q.target == QueryText(q);
    } else if '|' in q.relation {
      var x, y := SplitOnce(q.relation);
      p := Query(q.user + "|" + x, y, q.target);
      assert QueryText(p) == q.user + "|" + x + "|" + y + "|" + q.target == QueryText(q);
    } else {
      var x, y := SplitOnce(q.target);
      p := Query(q.user, q.relation + "|" + x, y);
      assert QueryText(p) == q.user + "|" + q.relation + "|" + x + "|" + y == QueryText(q);
    }
  }

  /** No other query shares a query's cache key exactly if the separator occurs in none of its parts. */
  lemma KeyIsOwnExactly(gen: string, q: Query)
    ensures (forall p :: PepKey(gen, p) == PepKey(gen, q) ==> p == q) <==>
            '|' !in q.user && '|' !in q.relation && '|' !in q.target
  {
    if Plain(q) {
      forall p | PepKey(gen, p) == PepKey(gen, q) ensures p == q {
        CancelPrefix(KEY_PREFIX, gen + ":" + QueryText(p), gen + ":" + QueryText(q));
        CancelPrefix(gen + ":", QueryText(p), QueryText(q));
        PlainTextIsOwn(q, p);
      }
    } else {
      var p := AnotherReading(q);
      assert PepKey(gen, p) == PepKey(gen, q);
    }
  }

  function Bit(allowed: bool): string {
    if allowed then "1" else "0"
  }

  function GenerationText(read: Option<string>): string {
    if read.None? || read.value == "" then "0" else read.value
  }

  // ----- Any number of callers at a time

  /** What the store answered from a moment on, until the next write. */
  datatype Version = Version(answers: Query -> bool, since: int)

  /** Where a cached answer came from: the store's version that gave it, and when. */
  datatype Origin = Origin(gen: string, bumps: nat, query: Query, version: nat, asked: int)

  /** A check in progress. `gen` is None when the generation could not be read; `bumps` counts the
      generation bumps that had succeeded when it was read. */
  datatype Call =
    | Keyed(query: Query, gen: Option<string>, bumps: nat)
    | Missed(query: Query, gen: Option<string>, bumps: nat)
    | Asked(query: Query, gen: Option<string>, bumps: nat, answer: bool, version: nat, asked: int)
    | Answered(query: Query, bumps: nat, answer: bool, origin: Origin, at: int)
    | Failed

  /** `history` holds every version of the store so far; `floors[b]` is the version in force at the b-th
      successful bump; `max` is how many entries the cache, shared with other users, may hold. */
  datatype World = World(history: seq<Version>, floors: seq<nat>, cache: Entries, max: nat, origins: map<string, Origin>,
                         calls: map<nat, Call>, now: int, ttl: int)

  /** An insertion comes with what the cache is left with, which is its own choice; other users insert,
      count and delete under keys of their own; `Evict` is any other loss of entries: a flush, or what
      another backend throws out. */
  datatype Step =
    | Begin(id: nat, query: Query, cacheUp: bool)
    | Look(id: nat, cacheUp: bool)
    | Ask(id: nat, storeUp: bool)
    | Fill(id: nat, cacheUp: bool, left: Entries)
    | Write(answers: Query -> bool)
    | Bump(cacheUp: bool)
    | OtherSet(key: string, entry: Entry, left: Entries)
    | OtherCount(key: string)
    | Evict(keys: set<string>)
    | Tick(seconds: nat)

  function ReadGeneration(w: World): string {
    GenerationText(Lookup(w.cache, GENERATION_KEY, w.now))
  }

  function Set(w: World, id: nat, call: Call): World {
    w.(calls := w.calls[id := call])
  }

  function TakeBegin(w: World, id: nat, q: Query, cacheUp: bool): World {
    if id in w.calls then w
    else
      Set(w, id, Keyed(q, if cacheUp then Some(ReadGeneration(w)) else None, if |w.floors| == 0 then 0 else |w.floors| - 1))
        .(cache := if cacheUp then AfterGet(w.cache, GENERATION_KEY, w.now) else w.cache)
  }

  /** Where the entry under a key came from; nothing is known of an entry nobody in the model put there. */
  function OriginOf(w: World, key: string): Origin {
    if key in w.origins then w.origins[key] else Origin("", 0, Query("", "", ""), |w.history|, w.now)
  }

  function TakeLook(w: World, id: nat, cacheUp: bool): World {
    if id !in w.calls || !w.calls[id].Keyed? then w
    else
      var c := w.calls[id];
      if c.gen.None? || !cacheUp then Set(w, id, Missed(c.query, c.gen, c.bumps))
      else
        var key := PepKey(c.gen.value, c.query);
        var found := Lookup(w.cache, key, w.now);
        Set(w, id, if found.Some? then Answered(c.query, c.bumps, found.value == "1", OriginOf(w, key), w.now)
                   else Missed(c.query, c.gen, c.bumps))
          .(cache := AfterGet(w.cache, key, w.now))
  }

  function TakeAsk(w: World, id: nat, storeUp: bool): World {
    if id !in w.calls || !w.calls[id].Missed? || |w.history| == 0 then w
    else if !storeUp then Set(w, id, Failed)
    else
      var c := w.calls[id];
      var last := |w.history| - 1;
      Set(w, id, Asked(c.query, c.gen, c.bumps, w.history[last].answers(c.query), last, w.now))
  }

  function TakeFill(w: World, id: nat, cacheUp: bool, left: Entries): World {
    if id !in w.calls || !w.calls[id].Asked? then w
    else
      var c := w.calls[id];
      var origin := Origin(if c.gen.Some? then c.gen.value else "", c.bumps, c.query, c.version, c.asked);
      var v := Set(w, id, Answered(c.query, c.bumps, c.answer, origin, w.now));
      if c.gen.None? || !cacheUp then v
      else
        var key := PepKey(c.gen.value, c.query);
        if SetMayLeave(w.cache, key, EntryFor(Bit(c.answer), w.ttl, w.now), w.max, w.now, left)
        then v.(cache := left, origins := v.origins[key := origin])
        else w // not something the cache can do
  }

  function TakeBump(w: World, cacheUp: bool): World {
    if !cacheUp || Incremented(w.cache, GENERATION_KEY, w.now).None? || |w.history| == 0 then w
    else w.(cache := AfterIncrement(w.cache, GENERATION_KEY, w.now), floors := w.floors + [|w.history| - 1])
  }

  function TakeOther(w: World, key: string, entry: Entry, left: Entries): World {
    if HasPrefix(key, KEY_PREFIX) || !SetMayLeave(w.cache, key, entry, w.max, w.now, left) then w
    else w.(cache := left)
  }

  function TakeCount(w: World, key: string): World {
    if HasPrefix(key, KEY_PREFIX) then w else w.(cache := AfterIncrement(w.cache, key, w.now))
  }

  function Take(w: World, step: Step): World {
    match step
    case Begin(id, q, up) => TakeBegin(w, id, q, up)
    case Look(id, up) => TakeLook(w, id, up)
    case Ask(id, up) => TakeAsk(w, id, up)
    case Fill(id, up, left) => TakeFill(w, id, up, left)
    case Write(answers) => w.(history := w.history + [Version(answers, w.now)])
    case Bump(up) => TakeBump(w, up)
    case OtherSet(key, entry, left) => TakeOther(w, key, entry, left)
    case OtherCount(key) => TakeCount(w, key)
    case Evict(keys) => w.(cache := w.cache - keys)
    case Tick(seconds) => w.(now := w.now + seconds)
  }

  function Run(w: World, steps: seq<Step>): World
    decreases |steps|
  {
    if steps == [] then w else Run(Take(w, steps[0]), steps[1..])
  }

  /** No decision cached, nobody asking, one version of the store; others may use the cache already. */
  ghost predicate Started(w: World) {
    |w.history| == 1 && w.floors == [0] && w.origins == map[] && w.calls == map[] && w.max > 0
    && (forall k | k in w.cache :: !HasPrefix(k, KEY_PREFIX))
    && w.history[0].since <= w.now
  }

  predicate Truthful(w: World, o: Origin, value: bool) {
    o.version < |w.history| && value == w.history[o.version].answers(o.query)
  }

  // ----- One caller at a time

  /** What a check finds in the cache, with whether reading the generation and reading the key fail. */
  function FoundBy(entries: Entries, now: int, q: Query, keyFails: bool, getFails: bool): Option<string> {
    if keyFails || getFails then None
    else Lookup(entries, PepKey(GenerationText(Lookup(entries, GENERATION_KEY, now)), q), now)
  }

  /** What the two reads leave: they drop what they find expired. */
  function AfterReads(entries: Entries, now: int, q: Query, keyFails: bool, getFails: bool): Entries {
    if keyFails then entries
    else
      var once := AfterGet(entries, GENERATION_KEY, now);
      if getFails then once else AfterGet(once, PepKey(GenerationText(Lookup(entries, GENERATION_KEY, now)), q), now)
  }

  /** The store's answer is put into the cache when there was one and the cache answered so far. */
  predicate Stores(entries: Entries, now: int, q: Query, keyFails: bool, getFails: bool, setFails: bool, asked: Option<bool>) {
    !keyFails && !setFails && asked.Some? && FoundBy(entries, now, q, keyFails, getFails).None?
  }

  /** What a check may leave of the cache. */
  predicate CheckMayLeave(entries: Entries, now: int, max: nat, ttl: int, q: Query,
                          keyFails: bool, getFails: bool, setFails: bool, asked: Option<bool>, after: Entries)
  {
    var read := AfterReads(entries, now, q, keyFails, getFails);
    if Stores(entries, now, q, keyFails, getFails, setFails, asked)
    then SetMayLeave(read, PepKey(GenerationText(Lookup(entries, GENERATION_KEY, now)), q), EntryFor(Bit(asked.value), ttl, now), max, now, after)
    else after == read
  }

  /** The wrapper around the store's checks. Each flag says whether that access to the cache fails. */
  class CachedAuthorizer {
    const cache: Memory
    const ttl: int
    var failures: nat

    constructor (cache: Memory, ttl: int)
      ensures this.cache == cache && this.ttl == ttl && failures == 0
    {
      this.cache, this.ttl, failures := cache, ttl, 0;
    }

    /** Answers from the cache on a hit and from the store otherwise; a broken cache never fails a check,
        and a failing store is never cached. */
    method Check(inner: Query -> Option<bool>, q: Query, keyFails: bool, getFails: bool, setFails: bool)
      returns (allowed: Option<bool>)
      requires cache.Valid()
      modifies this, cache`entries
      ensures var found := FoundBy(old(cache.entries), cache.now, q, keyFails, getFails);
              allowed == if found.Some? then Some(found.value == "1") else inner(q)
      ensures CheckMayLeave(old(cache.entries), cache.now, cache.max, ttl, q, keyFails, getFails, setFails, inner(q), cache.entries)
      ensures keyFails || getFails ==> allowed == inner(q)
      ensures allowed.None? ==> inner(q).None? && forall k | k in cache.entries :: k in old(cache.entries) && cache.entries[k] == old(cache.entries)[k]
      ensures keyFails ==> failures == old(failures) + 1
    {
      var key := "";
      var cacheUp := !keyFails;
      if keyFails {
        failures := failures + 1;
      } else {
        var gen := cache.Get(GENERATION_KEY);
        if gen.None? || gen.value == "" {
          gen := Some("0");
        }
        key := PepKey(gen.value, q);
      }
      if cacheUp {
        if getFails {
          failures := failures + 1;
        } else {
          ghost var before := cache.entries;
          var found := cache.Get(key);
          LookupReadsUnexpired(before, old(cache.entries), key, cache.now);
          if found.Some? {
            return Some(found.value == "1");
          }
        }
      }
      allowed := inner(q);
      if allowed.Some? && cacheUp {
        if setFails {
          failures := failures + 1;
        } else {
          cache.Set(key, Bit(allowed.value), ttl);
        }
      }
    }
  }

  /** One check is the four steps of a call made in one go: whatever it may leave of the cache, the steps
      leave, and they end in the answer it gives. */
  lemma CheckIsFourSteps(w: World, id: nat, q: Query, keyFails: bool, getFails: bool, setFails: bool, asked: Option<bool>, after: Entries)
    requires id !in w.calls && |w.history| > 0 && (asked.Some? ==> asked.value == w.history[|w.history| - 1].answers(q))
    requires CheckMayLeave(w.cache, w.now, w.max, w.ttl, q, keyFails, getFails, setFails, asked, after)
    ensures var v := Run(w, [Begin(id, q, !keyFails), Look(id, !getFails), Ask(id, asked.Some?), Fill(id, !setFails, after)]);
            var found := FoundBy(w.cache, w.now, q, keyFails, getFails);
            var allowed := if found.Some? then Some(found.value == "1") else asked;
            && v.cache == after && id in v.calls
            && (if allowed.Some? then v.calls[id].Answered? && v.calls[id].answer == allowed.value else v.calls[id].Failed?)
  {
    FourSteps(w, id, q, !keyFails, !getFails, asked.Some?, !setFails, after);
    var b := TakeLook(TakeBegin(w, id, q, !keyFails), id, !getFails);
    ReadsInTwoSteps(w, id, q, keyFails, getFails);
    if b.calls[id].Missed? {
      var c := TakeAsk(b, id, asked.Some?);
      hide PepKey, SetMayLeave, TakeBegin, TakeLook, FoundBy, AfterReads;
      assert asked.Some? ==> c.calls[id].Asked? && c.calls[id].answer == asked.value && c.calls[id].gen == b.calls[id].gen;
    }
  }

  lemma ReadsInTwoSteps(w: World, id: nat, q: Query, keyFails: bool, getFails: bool)
    requires id !in w.calls
    ensures var b := TakeLook(TakeBegin(w, id, q, !keyFails), id, !getFails);
            var found := FoundBy(w.cache, w.now, q, keyFails, getFails);
            && b.cache == AfterReads(w.cache, w.now, q, keyFails, getFails) && id in b.calls
            && b.history == w.history && b.max == w.max && b.ttl == w.ttl && b.now == w.now
            && (if found.Some? then b.calls[id].Answered? && b.calls[id].answer == (found.value == "1")
                else b.calls[id].Missed? && b.calls[id].query == q
                     && b.calls[id].gen == if keyFails then None else Some(GenerationText(Lookup(w.cache, GENERATION_KEY, w.now))))
  {
    var a := TakeBegin(w, id, q, !keyFails);
    if !keyFails {
      var key := PepKey(ReadGeneration(w), q);
      SameUnexpired(w.cache, GENERATION_KEY, w.now);
      LookupReadsUnexpired(a.cache, w.cache, key, w.now);
    }
  }

  lemma SameUnexpired(entries: Entries, key: string, now: int)
    ensures Unexpired(AfterGet(entries, key, now), now) == Unexpired(entries, now)
  {
  }

  lemma FourSteps(w: World, id: nat, q: Query, keyUp: bool, getUp: bool, storeUp: bool, setUp: bool, left: Entries)
    ensures Run(w, [Begin(id, q, keyUp), Look(id, getUp), Ask(id, storeUp), Fill(id, setUp, left)])
            == TakeFill(TakeAsk(TakeLook(TakeBegin(w, id, q, keyUp), id, getUp), id, storeUp), id, setUp, left)
  {
    hide TakeBegin, TakeLook, TakeAsk, TakeFill;
    var s := [Begin(id, q, keyUp), Look(id, getUp), Ask(id, storeUp), Fill(id, setUp, left)];
    RunThree(w, s);
    var last := s[3..];
    assert last[1..] == [] && last[0] == Fill(id, setUp, left);
    var c := TakeAsk(TakeLook(TakeBegin(w, id, q, keyUp), id, getUp), id, storeUp);
    assert Run(c, last) == Run(Take(c, last[0]), last[1..]);
  }

  lemma RunThree(w: World, s: seq<Step>)
    requires |s| >= 3
    ensures Run(w, s) == Run(Take(Take(Take(w, s[0]), s[1]), s[2]), s[3..])
  {
    hide Take;
    assert s[1..][1..] == s[2..] && s[2..][1..] == s[3..];
    var a := Take(w, s[0]);
    var b := Take(a, s[1]);
    assert Run(w, s) == Run(a, s[1..]);
    assert Run(a, s[1..]) == Run(b, s[2..]);
    assert Run(b, s[2..]) == Run(Take(b, s[2]), s[3..]);
  }

  lemma LookupReadsUnexpired(a: Entries, b: Entries, key: string, now: int)
    requires Unexpired(a, now) == Unexpired(b, now)
    ensures Lookup(a, key, now) == Lookup(b, key, now)
  {
    assert key in Unexpired(a, now) <==> key in Unexpired(b, now);
    if key in Unexpired(a, now) {
      assert Unexpired(a, now)[key] == Unexpired(b, now)[key];
    }
  }

  /** The store's wrapper that bumps the generation after every successful change. */
  class InvalidatingStore {
    const cache: Memory

    constructor (cache: Memory)
      ensures this.cache == cache
    {
      this.cache := cache;
    }

    /** A failed bump is let pass: the change has been made. */
    method AfterChange(incrementFails: bool, ghost w: World) returns (bumped: bool)
      requires w.cache == cache.entries && w.now == cache.now && |w.history| > 0
      modifies cache`entries
      ensures var v := Take(w, Bump(!incrementFails));
              v.cache == cache.entries && (bumped <==> |v.floors| == |w.floors| + 1)
    {
      if incrementFails {
        return false;
      }
      var n := cache.Increment(GENERATION_KEY);
      return n.Some?;
    }
  }

  // ----- Freshness

  predicate FreshOrigin(w: World, o: Origin) {
    o.gen == Decimal(o.bumps) && o.bumps < |w.floors| && w.floors[o.bumps] <= o.version
  }

  predicate FreshEntry(w: World, k: string) {
    k in w.cache && k in w.origins && k == PepKey(w.origins[k].gen, w.origins[k].query)
    && FreshOrigin(w, w.origins[k])
    && Truthful(w, w.origins[k], w.cache[k].value == "1")
  }

  predicate FreshCall(w: World, c: Call) {
    match c
    case Keyed(_, gen, bumps) => bumps < |w.floors| && (gen.Some? ==> gen.value == Decimal(bumps))
    case Missed(_, gen, bumps) => bumps < |w.floors| && (gen.Some? ==> gen.value == Decimal(bumps))
    case Asked(q, gen, bumps, answer, version, asked) =>
      bumps < |w.floors| && (gen.Some? ==> gen.value == Decimal(bumps)) && w.floors[bumps] <= version
      && version < |w.history| && answer == w.history[version].answers(q)
    case Answered(q, bumps, answer, o, _) =>
      bumps < |w.floors| && w.floors[bumps] <= o.version && Truthful(w, o, answer) && QueryText(o.query) == QueryText(q)
    case Failed => true
  }

  predicate GenerationOk(w: World) {
    && |w.floors| > 0 && |w.history| > 0 && w.max > 0
    && (forall b | 0 <= b < |w.floors| :: w.floors[b] < |w.history|)
    && (if |w.floors| == 1 then GENERATION_KEY !in w.cache
        else GENERATION_KEY in w.cache && w.cache[GENERATION_KEY] == Entry(Decimal(|w.floors| - 1), None))
  }

  predicate Fresh(w: World) {
    && GenerationOk(w)
    && (forall k | k in w.cache && IsDecisionKey(k) :: FreshEntry(w, k))
    && (forall id | id in w.calls :: FreshCall(w, w.calls[id]))
  }

  lemma DecimalHasNoColon(n: nat)
    ensures ':' !in Decimal(n) && Decimal(n) != ""
  {
    DecimalRoundTrip(n);
  }

  lemma GenerationReads(w: World)
    requires GenerationOk(w)
    ensures ReadGeneration(w) == Decimal(|w.floors| - 1) && AfterGet(w.cache, GENERATION_KEY, w.now) == w.cache
  {
    DecimalHasNoColon(|w.floors| - 1);
  }

  lemma BumpCounts(w: World)
    requires GenerationOk(w) && |w.floors| <= MAX_INT64
    ensures var v := TakeBump(w, true);
            && v == w.(cache := w.cache[GENERATION_KEY := Entry(Decimal(|w.floors|), None)], floors := w.floors + [|w.history| - 1])
  {
    var n := |w.floors| - 1;
    AtoiReadsDecimal(n);
    assert Incremented(w.cache, GENERATION_KEY, w.now) == Some(n + 1);
  }

  lemma BumpKeepsFresh(w: World, cacheUp: bool)
    requires Fresh(w) && |w.floors| <= MAX_INT64
    ensures Fresh(TakeBump(w, cacheUp))
  {
    BumpCanFail(w);
    if cacheUp {
      BumpCounts(w);
      hide TakeBump, Decimal, PepKey, QueryText, Truthful;
      var v := TakeBump(w, true);
      assert GenerationOk(v);
      forall k | k in v.cache && IsDecisionKey(k) ensures FreshEntry(v, k) {
        assert FreshEntry(w, k);
        BumpKeepsTruth(w, w.origins[k], w.cache[k].value == "1");
      }
      forall id | id in v.calls ensures FreshCall(v, v.calls[id]) {
        assert FreshCall(w, w.calls[id]);
        if w.calls[id].Answered? {
          BumpKeepsTruth(w, w.calls[id].origin, w.calls[id].answer);
        }
      }
    }
  }

  lemma BumpKeepsTruth(w: World, o: Origin, value: bool)
    ensures Truthful(TakeBump(w, true), o, value) <==> Truthful(w, o, value)
  {
  }

  lemma BumpCanFail(w: World)
    ensures TakeBump(w, false) == w
  {
  }

  lemma LookKeepsFresh(w: World, id: nat, cacheUp: bool)
    requires Fresh(w)
    ensures Fresh(TakeLook(w, id, cacheUp))
  {
    var v := TakeLook(w, id, cacheUp);
    if id in w.calls && w.calls[id].Keyed? {
      var c := w.calls[id];
      assert FreshCall(w, c);
      if c.gen.Some? {
        var key := PepKey(c.gen.value, c.query);
        PepKeyIsDecisionKey(c.gen.value, c.query);
        if key in w.cache {
          assert FreshEntry(w, key);
          var o := w.origins[key];
          DecimalHasNoColon(c.bumps);
          DecimalHasNoColon(o.bumps);
          PepKeysDiffer(c.gen.value, c.query, o.gen, o.query);
          DecimalInjective(c.bumps, o.bumps);
        }
      }
      assert FreshCall(v, v.calls[id]);
    }
    hide PepKey, QueryText;
    forall k | k in v.cache && IsDecisionKey(k) ensures FreshEntry(v, k) {
      assert FreshEntry(w, k);
    }
    forall other | other in v.calls ensures FreshCall(v, v.calls[other]) {
      if other != id {
        assert FreshCall(w, w.calls[other]);
      }
    }
  }

  /** The key a step inserts under, if it inserts. */
  function Inserts(w: World, step: Step): Option<string> {
    match step
    case Fill(id, up, _) =>
      if id in w.calls && w.calls[id].Asked? && w.calls[id].gen.Some? && up
      then Some(PepKey(w.calls[id].gen.value, w.calls[id].query)) else None
    case OtherSet(key, _, _) => Some(key)
    case _ => None
  }

  /** Steps that leave the generation counter alone: insertions for which the cache has room, and no other
      loss of the counter. */
  predicate Roomy(w: World, step: Step) {
    && (Inserts(w, step).Some? ==> HasRoom(w.cache, Inserts(w, step).value, w.max, w.now))
    && (step.Evict? ==> GENERATION_KEY !in step.keys)
  }

  lemma InsertionAddsOne(w: World, key: string, e: Entry, left: Entries)
    ensures SetMayLeave(w.cache, key, e, w.max, w.now, left) ==>
              key in left && left[key] == e && forall k | k in left && k != key :: k in w.cache && left[k] == w.cache[k]
  {
    if SetMayLeave(w.cache, key, e, w.max, w.now, left) {
      SetIsEvictThenPut(w.cache, key, e, w.max, w.now, left);
    }
  }

  /** What an insertion under another key does to the rest of the cache when there is room. */
  lemma InsertionKeepsGeneration(w: World, key: string, e: Entry, left: Entries)
    requires GenerationOk(w) && key != GENERATION_KEY && SetMayLeave(w.cache, key, e, w.max, w.now, left)
    requires HasRoom(w.cache, key, w.max, w.now)
    ensures GenerationOk(w.(cache := left))
    ensures forall k | k in left && k != key :: k in w.cache && left[k] == w.cache[k]
    ensures key in left && left[key] == e
  {
    hide SetMayLeave, Decimal, HasRoom;
    InsertionAddsOne(w, key, e, left);
    if GENERATION_KEY in w.cache {
      LiveEntryStays(w.cache, key, e, w.max, w.now, left, GENERATION_KEY);
    }
  }

  lemma FillKeepsFreshEntry(w: World, id: nat, cacheUp: bool, left: Entries, k: string)
    requires Fresh(w) && id in w.calls && w.calls[id].Asked?
    requires k in TakeFill(w, id, cacheUp, left).cache && IsDecisionKey(k)
    ensures FreshEntry(TakeFill(w, id, cacheUp, left), k)
  {
    hide SetMayLeave, IsDecisionKey, QueryText;
    var c := w.calls[id];
    assert FreshCall(w, c);
    if c.gen.Some? && cacheUp {
      InsertionAddsOne(w, PepKey(c.gen.value, c.query), EntryFor(Bit(c.answer), w.ttl, w.now), left);
    }
    if !(c.gen.Some? && cacheUp && k == PepKey(c.gen.value, c.query)) || TakeFill(w, id, cacheUp, left) == w {
      assert FreshEntry(w, k);
    }
  }

  lemma FillKeepsFreshCall(w: World, id: nat, cacheUp: bool, left: Entries, other: nat)
    requires Fresh(w) && id in w.calls && w.calls[id].Asked? && other in w.calls
    ensures var v := TakeFill(w, id, cacheUp, left);
            other in v.calls && FreshCall(v, v.calls[other])
  {
    hide PepKey, SetMayLeave, QueryText, GenerationOk, FreshEntry, IsDecisionKey, Decimal, EntryFor;
    assert FreshCall(w, w.calls[id]);
    assert FreshCall(w, w.calls[other]);
  }

  lemma FillKeepsFresh(w: World, id: nat, cacheUp: bool, left: Entries)
    requires Fresh(w) && Roomy(w, Fill(id, cacheUp, left))
    ensures Fresh(TakeFill(w, id, cacheUp, left))
  {
    hide FreshEntry, FreshCall, SetMayLeave, HasRoom, PepKey, QueryText;
    if id in w.calls && w.calls[id].Asked? {
      var v := TakeFill(w, id, cacheUp, left);
      var c := w.calls[id];
      if v != w && c.gen.Some? && cacheUp {
        PepKeyIsDecisionKey(c.gen.value, c.query);
        InsertionKeepsGeneration(w, PepKey(c.gen.value, c.query), EntryFor(Bit(c.answer), w.ttl, w.now), left);
      }
      forall k | k in v.cache && IsDecisionKey(k) ensures FreshEntry(v, k) {
        FillKeepsFreshEntry(w, id, cacheUp, left, k);
      }
      forall other | other in v.calls ensures FreshCall(v, v.calls[other]) {
        FillKeepsFreshCall(w, id, cacheUp, left, other);
      }
    }
  }

  lemma BeginKeepsFresh(w: World, id: nat, q: Query, cacheUp: bool)
    requires Fresh(w)
    ensures Fresh(TakeBegin(w, id, q, cacheUp))
  {
    hide ReadGeneration, AfterGet;
    GenerationReads(w);
    var v := TakeBegin(w, id, q, cacheUp);
    forall k | k in v.cache && IsDecisionKey(k) ensures FreshEntry(v, k) {
      assert FreshEntry(w, k);
    }
    forall other | other in v.calls ensures FreshCall(v, v.calls[other]) {
      if other in w.calls {
        assert FreshCall(w, w.calls[other]);
      }
    }
  }

  lemma AskKeepsFresh(w: World, id: nat, storeUp: bool)
    requires Fresh(w)
    ensures Fresh(TakeAsk(w, id, storeUp))
  {
    var v := TakeAsk(w, id, storeUp);
    forall k | k in v.cache && IsDecisionKey(k) ensures FreshEntry(v, k) {
      assert FreshEntry(w, k);
    }
    forall other | other in v.calls ensures FreshCall(v, v.calls[other]) {
      assert FreshCall(w, w.calls[other]);
    }
  }

  lemma OtherSetKeepsFresh(w: World, key: string, e: Entry, left: Entries)
    requires Fresh(w) && Roomy(w, OtherSet(key, e, left))
    ensures Fresh(TakeOther(w, key, e, left))
  {
    var v := TakeOther(w, key, e, left);
    if v != w {
      InsertionKeepsGeneration(w, key, e, left);
      hide SetMayLeave, HasRoom;
      forall k | k in v.cache && IsDecisionKey(k) ensures FreshEntry(v, k) {
        assert FreshEntry(w, k);
      }
      forall id | id in v.calls ensures FreshCall(v, v.calls[id]) {
        assert FreshCall(w, w.calls[id]);
      }
    }
  }

  lemma OutsideKeepsFresh(w: World, step: Step)
    requires Fresh(w) && Roomy(w, step) && (step.Write? || step.Tick? || step.Evict? || step.OtherCount?)
    ensures Fresh(Take(w, step))
  {
    hide Incremented, FormatInt;
    var v := Take(w, step);
    assert GenerationOk(v);
    forall k | k in v.cache && IsDecisionKey(k) ensures FreshEntry(v, k) {
      assert FreshEntry(w, k);
    }
    forall id | id in v.calls ensures FreshCall(v, v.calls[id]) {
      assert FreshCall(w, w.calls[id]);
    }
  }

  /** Every step of the run finds room in the cache for what it inserts. */
  predicate RoomyRun(w: World, steps: seq<Step>)
    decreases |steps|
  {
    steps == [] || (Roomy(w, steps[0]) && RoomyRun(Take(w, steps[0]), steps[1..]))
  }

  lemma StepKeepsFresh(w: World, step: Step)
    requires Fresh(w) && Roomy(w, step) && |w.floors| <= MAX_INT64
    ensures Fresh(Take(w, step)) && |Take(w, step).floors| <= |w.floors| + 1
  {
    hide Fresh, Roomy;
    match step
    case Bump(up) => BumpKeepsFresh(w, up);
    case Look(id, up) => LookKeepsFresh(w, id, up);
    case Fill(id, up, left) => FillKeepsFresh(w, id, up, left);
    case Begin(id, q, up) => BeginKeepsFresh(w, id, q, up);
    case Ask(id, up) => AskKeepsFresh(w, id, up);
    case OtherSet(key, e, left) => OtherSetKeepsFresh(w, key, e, left);
    case _ => OutsideKeepsFresh(w, step);
  }

  lemma {:induction false} RunKeepsFresh(w: World, steps: seq<Step>)
    requires Fresh(w) && RoomyRun(w, steps) && |w.floors| + |steps| <= MAX_INT64
    ensures Fresh(Run(w, steps))
    decreases |steps|
  {
    hide Fresh, Roomy, Take;
    if steps != [] {
      StepKeepsFresh(w, steps[0]);
      RunKeepsFresh(Take(w, steps[0]), steps[1..]);
    }
  }

  lemma StepKeepsTheFloor(w: World, step: Step, id: nat)
    requires id in w.calls
    ensures var v := Take(w, step);
            && w.floors <= v.floors && id in v.calls && |v.floors| <= |w.floors| + 1
            && (v.calls[id].Failed? || (!w.calls[id].Failed? && v.calls[id].query == w.calls[id].query && v.calls[id].bumps == w.calls[id].bumps))
  {
    hide AfterIncrement, Incremented, PepKey, SetMayLeave, AfterGet;
  }

  /** What a check's answer is about: once begun, its query and the floor under it stay what they were. */
  lemma {:induction false} CallsKeepTheirFloor(w: World, steps: seq<Step>, id: nat)
    requires id in w.calls
    ensures var v := Run(w, steps);
            && w.floors <= v.floors && id in v.calls
            && (v.calls[id].Failed? || (!w.calls[id].Failed? && v.calls[id].query == w.calls[id].query && v.calls[id].bumps == w.calls[id].bumps))
    decreases |steps|
  {
    hide Take;
    if steps != [] {
      StepKeepsTheFloor(w, steps[0], id);
      CallsKeepTheirFloor(Take(w, steps[0]), steps[1..], id);
    }
  }

  /** Decisions are fresh: in every interleaving in which each insertion finds fewer entries, or fewer live
      ones, than the cache may hold, a check that begins after `before` answers as the store did at some
      version no older than the one in force at the last successful bump before the check began; and the
      answer is to its own query if that holds no separator. */
  lemma AnswersAreFresh(w: World, before: seq<Step>, id: nat, q: Query, cacheUp: bool, after: seq<Step>)
    requires Started(w) && RoomyRun(w, before) && RoomyRun(Take(Run(w, before), Begin(id, q, cacheUp)), after)
    requires |before| + |after| < MAX_INT64 - 1
    requires id !in Run(w, before).calls
    ensures |Run(w, before).floors| > 0
    ensures var u := Run(w, before);
            var v := Run(Take(u, Begin(id, q, cacheUp)), after);
            id in v.calls && (v.calls[id].Answered? ==>
              exists version: nat, same: Query ::
                u.floors[|u.floors| - 1] <= version < |v.history| && QueryText(same) == QueryText(q) && (Plain(q) ==> same == q)
                && v.calls[id].answer == v.history[version].answers(same))
  {
    StartedIsFresh(w);
    hide Fresh, Run, RoomyRun, Started, TakeBegin, QueryText;
    var u := Run(w, before);
    RunKeepsFresh(w, before);
    FloorsGrowSlowly(w, before);
    FreshHasFloors(u);
    var b := Take(u, Begin(id, q, cacheUp));
    BeginKeepsFresh(u, id, q, cacheUp);
    BegunCall(u, id, q, cacheUp);
    RunKeepsFresh(b, after);
    CallsKeepTheirFloor(b, after, id);
    if Run(b, after).calls[id].Answered? {
      FreshAnswer(Run(b, after), id);
      var same := Run(b, after).calls[id].origin.query;
      if Plain(q) {
        PlainTextIsOwn(q, same);
      }
    }
  }

  lemma StartedIsFresh(w: World)
    requires Started(w)
    ensures Fresh(w) && |w.floors| == 1
  {
    assert HasPrefix(GENERATION_KEY, KEY_PREFIX);
  }

  lemma FreshHasFloors(w: World)
    requires Fresh(w)
    ensures |w.floors| > 0
  {
  }

  lemma BegunCall(u: World, id: nat, q: Query, cacheUp: bool)
    requires id !in u.calls && |u.floors| > 0
    ensures var b := TakeBegin(u, id, q, cacheUp);
            id in b.calls && b.calls[id].Keyed? && b.calls[id].query == q && b.calls[id].bumps == |u.floors| - 1 && b.floors == u.floors
  {
  }

  lemma FreshAnswer(v: World, id: nat)
    requires Fresh(v) && id in v.calls && v.calls[id].Answered?
    ensures var c := v.calls[id];
            && c.bumps < |v.floors| && v.floors[c.bumps] <= c.origin.version < |v.history|
            && c.answer == v.history[c.origin.version].answers(c.origin.query) && QueryText(c.origin.query) == QueryText(c.query)
  {
    assert FreshCall(v, v.calls[id]);
  }

  lemma {:induction false} FloorsGrowSlowly(w: World, steps: seq<Step>)
    ensures |Run(w, steps).floors| <= |w.floors| + |steps|
    decreases |steps|
  {
    if steps != [] {
      FloorsGrowSlowly(Take(w, steps[0]), steps[1..]);
    }
  }

  lemma {:induction false} RunSplit(w: World, a: seq<Step>, b: seq<Step>)
    ensures Run(w, a + b) == Run(Run(w, a), b)
    decreases |a|
  {
    if a == [] {
      assert a + b == b;
    } else {
      assert (a + b)[1..] == a[1..] + b;
      RunSplit(Take(w, a[0]), a[1..], b);
    }
  }

  lemma {:induction false} LastFloorGrows(w: World, steps: seq<Step>, n: nat)
    requires |w.history| > n && |w.floors| > 0 && w.floors[|w.floors| - 1] >= n
    ensures var v := Run(w, steps);
            |v.history| > n && |v.floors| > 0 && v.floors[|v.floors| - 1] >= n
    decreases |steps|
  {
    if steps != [] {
      OneStepFloor(w, steps[0], n);
      LastFloorGrows(Take(w, steps[0]), steps[1..], n);
    }
  }

  lemma OneStepFloor(w: World, step: Step, n: nat)
    requires |w.history| > n && |w.floors| > 0 && w.floors[|w.floors| - 1] >= n
    ensures var v := Take(w, step);
            |v.history| > n && |v.floors| > 0 && v.floors[|v.floors| - 1] >= n
  {
    hide AfterIncrement, Incremented, PepKey, SetMayLeave, AfterGet;
  }

  lemma {:induction false} HistoryGrows(w: World, steps: seq<Step>)
    ensures w.history <= Run(w, steps).history
    decreases |steps|
  {
    if steps != [] {
      OneStepHistory(w, steps[0]);
      HistoryGrows(Take(w, steps[0]), steps[1..]);
    }
  }

  lemma OneStepHistory(w: World, step: Step)
    ensures w.history <= Take(w, step).history
  {
    hide AfterIncrement, Incremented, PepKey, SetMayLeave, AfterGet;
  }

  /** Whatever happens between a write and a successful bump, and after it: from then on the last floor is
      that write's version or a later one. */
  lemma BumpPutsTheFloorUnderTheWrite(w: World, answers: Query -> bool, mid: seq<Step>, post: seq<Step>)
    requires var u := Run(Take(w, Write(answers)), mid); Incremented(u.cache, GENERATION_KEY, u.now).Some?
    ensures var v := Run(Take(Run(Take(w, Write(answers)), mid), Bump(true)), post);
            && |v.history| > |w.history| && v.history[|w.history|].answers == answers
            && |v.floors| > 0 && v.floors[|v.floors| - 1] >= |w.history|
  {
    hide Run, Incremented, AfterIncrement;
    var a := Take(w, Write(answers));
    var u := Run(a, mid);
    HistoryGrows(a, mid);
    var b := Take(u, Bump(true));
    LastFloorGrows(b, post, |w.history|);
    HistoryGrows(b, post);
  }

  lemma {:induction false} RoomySplit(w: World, a: seq<Step>, b: seq<Step>)
    ensures RoomyRun(w, a + b) <==> RoomyRun(w, a) && RoomyRun(Run(w, a), b)
    decreases |a|
  {
    hide Roomy, Take;
    if a == [] {
      assert a + b == b;
    } else {
      assert (a + b)[1..] == a[1..] + b;
      RoomySplit(Take(w, a[0]), a[1..], b);
    }
  }

  lemma RunOne(w: World, step: Step)
    ensures Run(w, [step]) == Take(w, step) && (RoomyRun(w, [step]) <==> Roomy(w, step))
  {
    hide Take, Roomy;
    assert [step][1..] == [];
    assert Run(Take(w, step), []) == Take(w, step) && RoomyRun(Take(w, step), []);
  }

  /** In a run that keeps the counter, a bump with the cache up succeeds. */
  lemma BumpSucceeds(w: World)
    requires Fresh(w) && |w.floors| <= MAX_INT64
    ensures Incremented(w.cache, GENERATION_KEY, w.now).Some?
  {
    AtoiReadsDecimal(|w.floors| - 1);
  }

  lemma FreshAtTheBump(w: World, pre: seq<Step>, answers: Query -> bool, mid: seq<Step>)
    requires Started(w) && RoomyRun(w, pre + ([Write(answers)] + mid)) && |pre| + |mid| < MAX_INT64 - 2
    ensures var u := Run(Take(Run(w, pre), Write(answers)), mid);
            u == Run(w, pre + ([Write(answers)] + mid)) && Incremented(u.cache, GENERATION_KEY, u.now).Some?
  {
    StartedIsFresh(w);
    hide Fresh, Run, RoomyRun, Started, Incremented;
    var steps := pre + ([Write(answers)] + mid);
    RunKeepsFresh(w, steps);
    FloorsGrowSlowly(w, steps);
    RunSplit(w, pre, [Write(answers)] + mid);
    RunSplit(Run(w, pre), [Write(answers)], mid);
    RunOne(Run(w, pre), Write(answers));
    BumpSucceeds(Run(w, steps));
  }

  /** A write that was followed by a bump is seen: in every interleaving that keeps the counter, with anything
      between the write and the bump, between the bump and the check, and during the check, a check that
      begins after the bump answers as the store did at that write or later. */
  lemma BumpedWriteIsSeen(w: World, pre: seq<Step>, answers: Query -> bool, mid: seq<Step>, post: seq<Step>,
                          id: nat, q: Query, cacheUp: bool, during: seq<Step>)
    requires Started(w)
    requires var before := pre + ([Write(answers)] + mid) + ([Bump(true)] + post);
             && RoomyRun(w, before) && id !in Run(w, before).calls && |before| + |during| < MAX_INT64 - 1
             && RoomyRun(Take(Run(w, before), Begin(id, q, cacheUp)), during)
    ensures var before := pre + ([Write(answers)] + mid) + ([Bump(true)] + post);
            var written := |Run(w, pre).history|;
            var v := Run(Take(Run(w, before), Begin(id, q, cacheUp)), during);
            && id in v.calls && |v.history| > written && v.history[written].answers == answers
            && (v.calls[id].Answered? ==>
                  exists version: nat, same: Query ::
                    written <= version < |v.history| && QueryText(same) == QueryText(q) && (Plain(q) ==> same == q)
                    && v.calls[id].answer == v.history[version].answers(same))
  {
    hide Run, RoomyRun, Started, Incremented, QueryText, TakeBegin;
    var first := pre + ([Write(answers)] + mid);
    var before := first + ([Bump(true)] + post);
    RoomySplit(w, first, [Bump(true)] + post);
    FreshAtTheBump(w, pre, answers, mid);
    RunSplit(w, first, [Bump(true)] + post);
    RunSplit(Run(w, first), [Bump(true)], post);
    RunOne(Run(w, first), Bump(true));
    BumpPutsTheFloorUnderTheWrite(Run(w, pre), answers, mid, post);
    AnswersAreFresh(w, before, id, q, cacheUp, during);
    BeginKeepsHistory(Run(w, before), id, q, cacheUp);
    HistoryGrows(Take(Run(w, before), Begin(id, q, cacheUp)), during);
  }

  lemma BeginKeepsHistory(w: World, id: nat, q: Query, cacheUp: bool)
    ensures TakeBegin(w, id, q, cacheUp).history == w.history
  {
  }

  // ----- The bound that always holds

  /** The version was in force at that time. */
  predicate InForce(w: World, version: nat, time: int) {
    version < |w.history| && w.history[version].since <= time <= w.now
    && (version + 1 < |w.history| ==> time <= w.history[version + 1].since)
  }

  predicate TimedEntry(w: World, k: string, delay: nat) {
    k in w.cache && k in w.origins && k == PepKey(w.origins[k].gen, w.origins[k].query)
    && ':' !in w.origins[k].gen
    && Truthful(w, w.origins[k], w.cache[k].value == "1") && InForce(w, w.origins[k].version, w.origins[k].asked)
    && w.cache[k].expires.Some? && w.cache[k].expires.value <= w.origins[k].asked + delay + w.ttl
  }

  predicate TimedCall(w: World, c: Call, delay: nat) {
    match c
    case Keyed(_, gen, _) => gen.Some? ==> ':' !in gen.value
    case Missed(_, gen, _) => gen.Some? ==> ':' !in gen.value
    case Asked(q, gen, _, answer, version, asked) =>
      (gen.Some? ==> ':' !in gen.value) && InForce(w, version, asked) && answer == w.history[version].answers(q)
    case Answered(q, _, answer, o, at) =>
      Truthful(w, o, answer) && InForce(w, o.version, o.asked) && QueryText(o.query) == QueryText(q)
      && at - w.ttl - delay <= o.asked <= at
    case Failed => true
  }

  predicate Timed(w: World, delay: nat) {
    && w.ttl > 0 && |w.history| > 0 && w.max > 0 && w.history[|w.history| - 1].since <= w.now
    && (GENERATION_KEY in w.cache ==> ':' !in w.cache[GENERATION_KEY].value)
    && (forall k | k in w.cache && IsDecisionKey(k) :: TimedEntry(w, k, delay))
    && (forall id | id in w.calls :: TimedCall(w, w.calls[id], delay))
  }

  /** Nobody takes longer than `delay` from the store's answer to putting it into the cache. */
  predicate Prompt(w: World, step: Step, delay: nat) {
    step.Fill? && step.id in w.calls && w.calls[step.id].Asked? ==> w.now <= w.calls[step.id].asked + delay
  }

  lemma FormatHasNoColon(n: int)
    ensures ':' !in FormatInt(n)
  {
    if n < 0 {
      DecimalHasNoColon(-n);
    } else {
      DecimalHasNoColon(n);
    }
  }

  lemma BeginKeepsTimed(w: World, id: nat, q: Query, cacheUp: bool, delay: nat)
    requires Timed(w, delay)
    ensures Timed(TakeBegin(w, id, q, cacheUp), delay)
  {
    var v := TakeBegin(w, id, q, cacheUp);
    forall k | k in v.cache && IsDecisionKey(k) ensures TimedEntry(v, k, delay) {
      assert TimedEntry(w, k, delay);
    }
    forall other | other in v.calls ensures TimedCall(v, v.calls[other], delay) {
      if other in w.calls {
        assert TimedCall(w, w.calls[other], delay);
      }
    }
  }

  lemma LookedTimed(w: World, id: nat, cacheUp: bool, delay: nat)
    requires Timed(w, delay) && id in w.calls && w.calls[id].Keyed?
    ensures var v := TakeLook(w, id, cacheUp);
            id in v.calls && TimedCall(v, v.calls[id], delay)
  {
    var c := w.calls[id];
    assert TimedCall(w, c, delay);
    if c.gen.Some? {
      var key := PepKey(c.gen.value, c.query);
      PepKeyIsDecisionKey(c.gen.value, c.query);
      if key in w.cache {
        assert TimedEntry(w, key, delay);
        PepKeysDiffer(c.gen.value, c.query, w.origins[key].gen, w.origins[key].query);
      }
    }
    hide PepKey, QueryText, IsDecisionKey;
  }

  lemma LookKeepsTimed(w: World, id: nat, cacheUp: bool, delay: nat)
    requires Timed(w, delay)
    ensures Timed(TakeLook(w, id, cacheUp), delay)
  {
    var v := TakeLook(w, id, cacheUp);
    if id in w.calls && w.calls[id].Keyed? {
      LookedTimed(w, id, cacheUp, delay);
    }
    hide PepKey, QueryText;
    forall k | k in v.cache && IsDecisionKey(k) ensures TimedEntry(v, k, delay) {
      assert TimedEntry(w, k, delay);
    }
    forall other | other in v.calls ensures TimedCall(v, v.calls[other], delay) {
      if other != id {
        assert TimedCall(w, w.calls[other], delay);
      }
    }
  }

  lemma AskKeepsTimed(w: World, id: nat, storeUp: bool, delay: nat)
    requires Timed(w, delay)
    ensures Timed(TakeAsk(w, id, storeUp), delay)
  {
    var v := TakeAsk(w, id, storeUp);
    forall k | k in v.cache && IsDecisionKey(k) ensures TimedEntry(v, k, delay) {
      assert TimedEntry(w, k, delay);
    }
    forall other | other in v.calls ensures TimedCall(v, v.calls[other], delay) {
      assert TimedCall(w, w.calls[other], delay);
    }
  }

  lemma FillKeepsTimedEntry(w: World, id: nat, cacheUp: bool, left: Entries, delay: nat, k: string)
    requires Timed(w, delay) && Prompt(w, Fill(id, cacheUp, left), delay) && id in w.calls && w.calls[id].Asked?
    requires k in TakeFill(w, id, cacheUp, left).cache && IsDecisionKey(k)
    ensures TimedEntry(TakeFill(w, id, cacheUp, left), k, delay)
  {
    hide SetMayLeave, PepKey, IsDecisionKey;
    var c := w.calls[id];
    assert TimedCall(w, c, delay);
    if c.gen.Some? && cacheUp {
      InsertionAddsOne(w, PepKey(c.gen.value, c.query), EntryFor(Bit(c.answer), w.ttl, w.now), left);
    }
    if !(c.gen.Some? && cacheUp && k == PepKey(c.gen.value, c.query)) {
      assert TimedEntry(w, k, delay);
    }
  }

  lemma FillKeepsTimedCall(w: World, id: nat, cacheUp: bool, left: Entries, delay: nat, other: nat)
    requires Timed(w, delay) && Prompt(w, Fill(id, cacheUp, left), delay) && id in w.calls && w.calls[id].Asked? && other in w.calls
    ensures var v := TakeFill(w, id, cacheUp, left);
            other in v.calls && TimedCall(v, v.calls[other], delay)
  {
    hide PepKey;
    assert TimedCall(w, w.calls[id], delay);
    assert TimedCall(w, w.calls[other], delay);
  }

  lemma FillKeepsTimed(w: World, id: nat, cacheUp: bool, left: Entries, delay: nat)
    requires Timed(w, delay) && Prompt(w, Fill(id, cacheUp, left), delay)
    ensures Timed(TakeFill(w, id, cacheUp, left), delay)
  {
    hide TimedEntry, TimedCall, PepKey, InForce, Truthful, QueryText;
    if id in w.calls && w.calls[id].Asked? {
      var v := TakeFill(w, id, cacheUp, left);
      var c := w.calls[id];
      if c.gen.Some? && cacheUp {
        PepKeyIsDecisionKey(c.gen.value, c.query);
        InsertionAddsOne(w, PepKey(c.gen.value, c.query), EntryFor(Bit(c.answer), w.ttl, w.now), left);
      }
      hide SetMayLeave, IsDecisionKey;
      forall k | k in v.cache && IsDecisionKey(k) ensures TimedEntry(v, k, delay) {
        FillKeepsTimedEntry(w, id, cacheUp, left, delay, k);
      }
      forall other | other in v.calls ensures TimedCall(v, v.calls[other], delay) {
        FillKeepsTimedCall(w, id, cacheUp, left, delay, other);
      }
    }
  }

  lemma OtherSetKeepsTimed(w: World, key: string, e: Entry, left: Entries, delay: nat)
    requires Timed(w, delay)
    ensures Timed(TakeOther(w, key, e, left), delay)
  {
    hide SetMayLeave, PepKey, QueryText;
    var v := TakeOther(w, key, e, left);
    if v != w {
      InsertionAddsOne(w, key, e, left);
      forall k | k in v.cache && IsDecisionKey(k) ensures TimedEntry(v, k, delay) {
        assert TimedEntry(w, k, delay);
      }
      forall id | id in v.calls ensures TimedCall(v, v.calls[id], delay) {
        assert TimedCall(w, w.calls[id], delay);
      }
    }
  }

  lemma BumpOnlyTouchesTheCounter(w: World, cacheUp: bool)
    requires GENERATION_KEY in w.cache ==> ':' !in w.cache[GENERATION_KEY].value
    ensures var v := TakeBump(w, cacheUp);
            && v == w.(cache := v.cache, floors := v.floors)
            && (forall k | k != GENERATION_KEY :: (k in v.cache <==> k in w.cache) && (k in w.cache ==> v.cache[k] == w.cache[k]))
            && (GENERATION_KEY in v.cache ==> ':' !in v.cache[GENERATION_KEY].value)
  {
    hide FormatInt;
    if Incremented(w.cache, GENERATION_KEY, w.now).Some? {
      FormatHasNoColon(Incremented(w.cache, GENERATION_KEY, w.now).value);
    }
  }

  lemma BumpKeepsTimed(w: World, cacheUp: bool, delay: nat)
    requires Timed(w, delay)
    ensures Timed(TakeBump(w, cacheUp), delay)
  {
    BumpOnlyTouchesTheCounter(w, cacheUp);
    hide TakeBump, PepKey;
    var v := TakeBump(w, cacheUp);
    forall k | k in v.cache && IsDecisionKey(k) ensures TimedEntry(v, k, delay) {
      assert TimedEntry(w, k, delay);
    }
    forall id | id in v.calls ensures TimedCall(v, v.calls[id], delay) {
      assert TimedCall(w, w.calls[id], delay);
    }
  }

  lemma OutsideKeepsTimed(w: World, step: Step, delay: nat)
    requires Timed(w, delay) && (step.Write? || step.Evict? || step.Tick? || step.OtherCount?)
    ensures Timed(Take(w, step), delay)
  {
    hide PepKey;
    var v := Take(w, step);
    forall k | k in v.cache && IsDecisionKey(k) ensures TimedEntry(v, k, delay) {
      assert TimedEntry(w, k, delay);
    }
    forall id | id in v.calls ensures TimedCall(v, v.calls[id], delay) {
      assert TimedCall(w, w.calls[id], delay);
    }
  }

  predicate PromptRun(w: World, steps: seq<Step>, delay: nat)
    decreases |steps|
  {
    steps == [] || (Prompt(w, steps[0], delay) && PromptRun(Take(w, steps[0]), steps[1..], delay))
  }

  lemma {:induction false} RunKeepsTimed(w: World, steps: seq<Step>, delay: nat)
    requires Timed(w, delay) && PromptRun(w, steps, delay)
    ensures Timed(Run(w, steps), delay)
    decreases |steps|
  {
    if steps != [] {
      match steps[0] {
        case Begin(id, q, up) => BeginKeepsTimed(w, id, q, up, delay);
        case Look(id, up) => LookKeepsTimed(w, id, up, delay);
        case Ask(id, up) => AskKeepsTimed(w, id, up, delay);
        case Fill(id, up, left) => FillKeepsTimed(w, id, up, left, delay);
        case OtherSet(key, e, left) => OtherSetKeepsTimed(w, key, e, left, delay);
        case Bump(up) => BumpKeepsTimed(w, up, delay);
        case _ => OutsideKeepsTimed(w, steps[0], delay);
      }
      RunKeepsTimed(Take(w, steps[0]), steps[1..], delay);
    }
  }

  /** Staleness is bounded by the time to live whatever is evicted and however many bumps fail: every
      answer is one the store gave at some time within ttl + delay before it was returned. */
  lemma StalenessIsBounded(w: World, steps: seq<Step>, delay: nat, id: nat)
    requires Started(w) && w.ttl > 0 && PromptRun(w, steps, delay)
    requires id in Run(w, steps).calls && Run(w, steps).calls[id].Answered?
    ensures var v := Run(w, steps);
            var c := v.calls[id];
            exists version: nat, time: int, same: Query ::
              InForce(v, version, time) && c.at - w.ttl - delay <= time <= c.at && QueryText(same) == QueryText(c.query)
              && c.answer == v.history[version].answers(same)
  {
    RunKeepsTimed(w, steps, delay);
    RunKeepsTtl(w, steps);
    var v := Run(w, steps);
    var c := v.calls[id];
    assert TimedCall(v, c, delay);
    assert InForce(v, c.origin.version, c.origin.asked);
  }

  lemma {:induction false} RunKeepsTtl(w: World, steps: seq<Step>)
    ensures Run(w, steps).ttl == w.ttl
    decreases |steps|
  {
    if steps != [] {
      RunKeepsTtl(Take(w, steps[0]), steps[1..]);
    }
  }

  // ----- Why the counter must stay

  function FirstCheck(q: Query, left: Entries): seq<Step> {
    [Begin(0, q, true), Look(0, true), Ask(0, true), Fill(0, true, left)]
  }

  function Revocation(): seq<Step> {
    [Write(_ => false), Bump(true)]
  }

  function LastCheck(q: Query, key: string, e: Entry, left: Entries): seq<Step> {
    [OtherSet(key, e, left), Begin(1, q, true), Look(1, true)]
  }

  /** A started world whose cache other users have filled with live entries but for two. */
  ghost predicate NearlyFull(w: World) {
    Started(w) && w.ttl > 0 && |w.cache| + 2 == w.max && forall k | k in w.cache :: !Expired(w.cache[k], w.now)
  }

  lemma FirstFill(w: World, q: Query)
    requires NearlyFull(w) && w.history[0].answers(q)
    ensures var key := PepKey("0", q);
            var left := w.cache[key := EntryFor("1", w.ttl, w.now)];
            var v := Run(w, FirstCheck(q, left));
            && v == w.(cache := left, origins := v.origins, calls := v.calls)
            && v.calls.Keys == {0} && key !in w.cache
  {
    var key := PepKey("0", q);
    var left := w.cache[key := EntryFor("1", w.ttl, w.now)];
    PepKeyIsDecisionKey("0", q);
    FourSteps(w, 0, q, true, true, true, true, left);
    MissesThenAsks(w, q);
    var c := TakeAsk(TakeLook(TakeBegin(w, 0, q, true), 0, true), 0, true);
    NewEntryFits(w, key, EntryFor("1", w.ttl, w.now));
    hide PepKey, SetMayLeave, TakeAsk, TakeLook, TakeBegin, Run;
  }

  lemma NewEntryFits(w: World, key: string, e: Entry)
    requires key !in w.cache && |w.cache| < w.max
    ensures SetMayLeave(w.cache, key, e, w.max, w.now, w.cache[key := e])
  {
    assert w.cache[key := e] - {key} == w.cache - {key};
  }

  lemma MissesThenAsks(w: World, q: Query)
    requires NearlyFull(w) && w.history[0].answers(q)
    ensures var c := TakeAsk(TakeLook(TakeBegin(w, 0, q, true), 0, true), 0, true);
            && c == w.(calls := c.calls) && c.calls.Keys == {0} && c.calls[0] == Asked(q, Some("0"), 0, true, 0, w.now)
            && PepKey("0", q) !in w.cache && GENERATION_KEY !in w.cache
  {
    PepKeyIsDecisionKey("0", q);
    assert HasPrefix(GENERATION_KEY, KEY_PREFIX);
    var a := TakeBegin(w, 0, q, true);
    assert a == w.(calls := map[0 := Keyed(q, Some("0"), 0)]);
    var b := TakeLook(a, 0, true);
    hide PepKey;
    assert b == w.(calls := map[0 := Missed(q, Some("0"), 0)]);
  }

  lemma RevokedAndBumped(v: World)
    requires GENERATION_KEY !in v.cache && v.history != []
    ensures Run(v, Revocation()) == v.(history := v.history + [Version(_ => false, v.now)],
              cache := v.cache[GENERATION_KEY := Entry("1", None)], floors := v.floors + [|v.history|])
  {
    var s := Revocation();
    assert s[1..] == [Bump(true)] && s[1..][1..] == [];
    var a := Take(v, s[0]);
    assert Run(v, s) == Run(a, s[1..]);
    assert Run(a, s[1..]) == Run(Take(a, Bump(true)), []);
  }

  lemma {:induction false} AllLive(entries: Entries, now: int)
    requires forall k | k in entries :: !Expired(entries[k], now)
    ensures Unexpired(entries, now) == entries
  {
  }

  /** In a full cache another user's insertion may drop the counter and nothing else. */
  lemma CounterDropped(b: World, key: string, e: Entry)
    requires GENERATION_KEY in b.cache && |b.cache| == b.max && key !in b.cache
    requires forall k | k in b.cache :: !Expired(b.cache[k], b.now)
    ensures var left := (b.cache - {GENERATION_KEY})[key := e];
            SetMayLeave(b.cache, key, e, b.max, b.now, left)
  {
    var left := (b.cache - {GENERATION_KEY})[key := e];
    AllLive(b.cache, b.now);
    assert left - {key} == b.cache - {GENERATION_KEY};
    assert (b.cache - {GENERATION_KEY}).Keys == b.cache.Keys - {GENERATION_KEY};
    assert left.Keys == (b.cache.Keys - {GENERATION_KEY}) + {key};
    assert |b.cache.Keys - {GENERATION_KEY}| == |b.cache| - 1;
  }

  lemma StaleHit(b: World, q: Query, key: string, e: Entry, left: Entries)
    requires left == (b.cache - {GENERATION_KEY})[key := e] && SetMayLeave(b.cache, key, e, b.max, b.now, left)
    requires !HasPrefix(key, KEY_PREFIX) && 1 !in b.calls
    requires var k := PepKey("0", q); k in b.cache && b.cache[k].value == "1" && !Expired(b.cache[k], b.now)
    ensures var v := Run(b, LastCheck(q, key, e, left));
            && 1 in v.calls && v.calls[1].Answered? && v.calls[1].answer && v.history == b.history && v.floors == b.floors
  {
    var s := LastCheck(q, key, e, left);
    var c := b.(cache := left);
    PepKeyIsDecisionKey("0", q);
    assert HasPrefix(GENERATION_KEY, KEY_PREFIX);
    HitAgain(c, q);
    hide PepKey, SetMayLeave, TakeBegin, TakeLook;
    RunThree(b, s);
    assert s[3..] == [];
    assert Take(b, s[0]) == c;
  }

  lemma HitAgain(c: World, q: Query)
    requires GENERATION_KEY !in c.cache && 1 !in c.calls
    requires var k := PepKey("0", q); k in c.cache && c.cache[k].value == "1" && !Expired(c.cache[k], c.now)
    ensures var v := TakeLook(TakeBegin(c, 1, q, true), 1, true);
            && 1 in v.calls && v.calls[1].Answered? && v.calls[1].answer && v.history == c.history && v.floors == c.floors
  {
    hide PepKey;
    var d := TakeBegin(c, 1, q, true);
    assert d.calls[1].Keyed? && d.calls[1].gen == Some("0") && d.calls[1].query == q && d.cache == c.cache;
  }

  /** When the cache is full of live entries, an insertion by any of its users may throw out the generation
      counter. Generations then start over: a check that begins after a revocation and its bump is still
      answered from before them. */
  lemma EvictedCounterServesStale(w: World, q: Query, key: string, e: Entry) returns (left: Entries, later: Entries)
    requires NearlyFull(w) && w.history[0].answers(q) && key !in w.cache && !HasPrefix(key, KEY_PREFIX)
    ensures var v := Run(w, FirstCheck(q, left) + (Revocation() + LastCheck(q, key, e, later)));
            && 1 in v.calls && v.calls[1].Answered? && v.calls[1].answer
            && |v.history| == 2 && !v.history[1].answers(q) && v.floors == [0, 1]
  {
    var k := PepKey("0", q);
    PepKeyIsDecisionKey("0", q);
    left := w.cache[k := EntryFor("1", w.ttl, w.now)];
    FirstFill(w, q);
    var a := Run(w, FirstCheck(q, left));
    NoDecisionsYet(w, k);
    hide Run, PepKey, SetMayLeave, FirstCheck, Revocation, LastCheck, IsDecisionKey, HasPrefix, Started, EntryFor, Expired;
    RevokedAndBumped(a);
    var b := Run(a, Revocation());
    FullAfterwards(w, b, k);
    CounterDropped(b, key, e);
    later := (b.cache - {GENERATION_KEY})[key := e];
    StaleHit(b, q, key, e, later);
    RunSplit(w, FirstCheck(q, left), Revocation() + LastCheck(q, key, e, later));
    RunSplit(a, Revocation(), LastCheck(q, key, e, later));
  }

  lemma OneKeyMore(entries: Entries, k: string, e: Entry, now: int)
    requires k !in entries && !Expired(e, now) && forall x | x in entries :: !Expired(entries[x], now)
    ensures var more := entries[k := e];
            |more| == |entries| + 1 && forall x | x in more :: !Expired(more[x], now)
  {
    assert entries[k := e].Keys == entries.Keys + {k};
  }

  lemma NoDecisionsYet(w: World, k: string)
    requires Started(w) && IsDecisionKey(k)
    ensures k !in w.cache && GENERATION_KEY !in w.cache
  {
    assert HasPrefix(GENERATION_KEY, KEY_PREFIX);
  }

  lemma FullAfterwards(w: World, b: World, k: string)
    requires NearlyFull(w) && IsDecisionKey(k) && b.max == w.max && b.now == w.now
    requires b.cache == w.cache[k := EntryFor("1", w.ttl, w.now)][GENERATION_KEY := Entry("1", None)]
    ensures |b.cache| == b.max && forall x | x in b.cache :: !Expired(b.cache[x], b.now)
  {
    hide Started, HasPrefix;
    NoDecisionsYet(w, k);
    OneKeyMore(w.cache, k, EntryFor("1", w.ttl, w.now), w.now);
    OneKeyMore(w.cache[k := EntryFor("1", w.ttl, w.now)], GENERATION_KEY, Entry("1", None), w.now);
  }
}
