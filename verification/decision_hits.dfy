/** What the decision cache is for: a check that was answered once is answered again without the store. */
module DecisionHits {
  import opened Wrappers
  import opened Text
  import opened MemoryCache
  import opened DecisionCache

  /** What a check that had to ask the store leaves in the cache. */
  predicate AnswerKept(entries: Entries, now: int, max: nat, ttl: int, q: Query, answer: bool, after: Entries) {
    FoundBy(entries, now, q, false, false).None? && CheckMayLeave(entries, now, max, ttl, q, false, false, false, Some(answer), after)
  }

  lemma KeptUnderItsKey(entries: Entries, now: int, max: nat, ttl: int, q: Query, answer: bool, after: Entries, later: int)
    requires AnswerKept(entries, now, max, ttl, q, answer, after)
    ensures Lookup(after, PepKey(GenerationText(Lookup(entries, GENERATION_KEY, now)), q), later)
         == if ttl <= 0 || later <= now + ttl then Some(Bit(answer)) else None
  {
    var read := AfterReads(entries, now, q, false, false);
    var key := PepKey(GenerationText(Lookup(entries, GENERATION_KEY, now)), q);
    SetThenGet(read, key, Bit(answer), ttl, max, now, after, later);
    hide PepKey, SetMayLeave, AfterReads;
  }

  /** A check that asked the store answers the same question for the time to live, and no longer, from the
      cache, whatever the store would say by then, as long as the generation read is the same. */
  lemma SecondCheckHitsExactly(entries: Entries, now: int, max: nat, ttl: int, q: Query, answer: bool, after: Entries, later: int)
    requires AnswerKept(entries, now, max, ttl, q, answer, after)
    requires GenerationText(Lookup(after, GENERATION_KEY, later)) == GenerationText(Lookup(entries, GENERATION_KEY, now))
    ensures var found := FoundBy(after, later, q, false, false);
            && (found.Some? <==> ttl <= 0 || later <= now + ttl)
            && (found.Some? ==> (found.value == "1") == answer)
  {
    KeptUnderItsKey(entries, now, max, ttl, q, answer, after, later);
    hide PepKey, CheckMayLeave;
  }

  lemma GenerationOfCount(n: int)
    requires MIN_INT64 <= n <= MAX_INT64
    ensures GenerationText(Some(FormatInt(n))) == FormatInt(n)
  {
    AtoiReadsFormatInt(n);
  }

  lemma OtherGeneration(n: int, q: Query)
    requires MIN_INT64 <= n <= MAX_INT64 && MIN_INT64 <= Next(n) <= MAX_INT64
    ensures PepKey(FormatInt(n), q) != PepKey(FormatInt(Next(n)), q)
  {
    if PepKey(FormatInt(n), q) == PepKey(FormatInt(Next(n)), q) {
      FormatHasNoColon(n);
      FormatHasNoColon(Next(n));
      PepKeysDiffer(FormatInt(n), q, FormatInt(Next(n)), q);
      AtoiReadsFormatInt(n);
      AtoiReadsFormatInt(Next(n));
    }
  }

  /** A bump moves every question to another key, so that the answer kept is not found any more: the next check
      asks the store, unless something was cached under the new generation before. */
  lemma BumpMovesOn(entries: Entries, now: int, n: int, q: Query)
    requires Lookup(entries, GENERATION_KEY, now) == Some(FormatInt(n)) && MIN_INT64 <= n < MAX_INT64
    ensures var after := AfterIncrement(entries, GENERATION_KEY, now);
            && GenerationText(Lookup(after, GENERATION_KEY, now)) == FormatInt(n + 1)
            && PepKey(FormatInt(n + 1), q) != PepKey(FormatInt(n), q)
            && FoundBy(after, now, q, false, false) == Lookup(entries, PepKey(FormatInt(n + 1), q), now)
  {
    AtoiReadsFormatInt(n);
    GenerationOfCount(n + 1);
    OtherGeneration(n, q);
    PepKeyIsDecisionKey(FormatInt(n + 1), q);
    hide PepKey, FormatInt;
  }
}
