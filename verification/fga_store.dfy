/** The tuple store over its server: batches that are all or nothing, with a tuple-by-tuple fallback that
    makes writes and deletes idempotent. */
module FgaStore {
  import opened Wrappers
  import opened Tuples

  /** What happens to a request: it works, it fails without effect, or its answer gets lost. */
  datatype Weather = Works | FailsBefore | FailsAfter

  datatype Failure = AlreadyExists | DoesNotExist | RelationNotFound | OtherFailure

  function Slice(tuples: set<Tuple>, target: string, relation: string): set<Tuple> {
    set t | t in tuples && t.target == target && t.relation == relation
  }

  ghost predicate ClearFrom(weather: nat -> Weather, n: nat) {
    forall k: nat | n <= k :: weather(k).Works?
  }

  predicate NoRepeats(list: seq<Tuple>) {
    forall i, j | 0 <= i < j < |list| :: list[i] != list[j]
  }

  lemma NothingListed()
    ensures ToSet<Tuple>([]) == {} && NoRepeats([])
  {
  }

  lemma OneMore(list: seq<Tuple>, t: Tuple)
    ensures ToSet(list + [t]) == ToSet(list) + {t}
    ensures NoRepeats(list) && t !in ToSet(list) ==> NoRepeats(list + [t])
  {
  }

  /** What a strict server takes: a request with something in it, and nothing twice. */
  predicate Acceptable(strict: bool, batch: seq<Tuple>) {
    strict ==> batch != [] && NoRepeats(batch)
  }

  class Store {
    var tuples: set<Tuple>
    var requests: nat
    var changes: nat
    const weather: nat -> Weather
    const relations: set<string>
    const strict: bool

    constructor (weather: nat -> Weather, relations: set<string>, strict: bool)
      ensures tuples == {} && requests == 0 && changes == 0
      ensures this.weather == weather && this.relations == relations && this.strict == strict
    {
      tuples, requests, changes := {}, 0, 0;
      this.weather, this.relations, this.strict := weather, relations, strict;
    }

    /** One write request to the server: refused as a whole if any of the tuples is there already, or if the
        request itself is not acceptable. */
    method ServerWrite(batch: seq<Tuple>) returns (failure: Option<Failure>)
      modifies this
      ensures requests == old(requests) + 1 && changes == old(changes) + 1
      ensures tuples == old(tuples) || tuples == old(tuples) + ToSet(batch)
      ensures failure.None? ==> tuples == old(tuples) + ToSet(batch)
      ensures failure == Some(AlreadyExists) ==> tuples == old(tuples) && !(ToSet(batch) !! tuples)
      ensures !Acceptable(strict, batch) ==> failure == Some(OtherFailure) && tuples == old(tuples)
      ensures Acceptable(strict, batch) && weather(old(requests)).Works?
              ==> failure == if ToSet(batch) !! old(tuples) then None else Some(AlreadyExists)
    {
      var w := weather(requests);
      requests, changes := requests + 1, changes + 1;
      if w.FailsBefore? || !Acceptable(strict, batch) {
        return Some(OtherFailure);
      }
      if !(ToSet(batch) !! tuples) {
        return Some(if w.Works? then AlreadyExists else OtherFailure);
      }
      tuples := tuples + ToSet(batch);
      return if w.Works? then None else Some(OtherFailure);
    }

    /** One delete request: refused as a whole if any of the tuples is missing. */
    method ServerDelete(batch: seq<Tuple>) returns (failure: Option<Failure>)
      modifies this
      ensures requests == old(requests) + 1 && changes == old(changes) + 1
      ensures tuples == old(tuples) || tuples == old(tuples) - ToSet(batch)
      ensures failure.None? ==> tuples == old(tuples) - ToSet(batch)
      ensures failure == Some(DoesNotExist) ==> tuples == old(tuples) && !(ToSet(batch) <= tuples)
      ensures !Acceptable(strict, batch) ==> failure == Some(OtherFailure) && tuples == old(tuples)
      ensures Acceptable(strict, batch) && weather(old(requests)).Works?
              ==> failure == if ToSet(batch) <= old(tuples) then None else Some(DoesNotExist)
    {
      var w := weather(requests);
      requests, changes := requests + 1, changes + 1;
      if w.FailsBefore? || !Acceptable(strict, batch) {
        return Some(OtherFailure);
      }
      if !(ToSet(batch) <= tuples) {
        return Some(if w.Works? then DoesNotExist else OtherFailure);
      }
      tuples := tuples - ToSet(batch);
      return if w.Works? then None else Some(OtherFailure);
    }

    /** On success the tuples are there, whether or not some were before; on failure some may be. A strict
        server takes no empty list and no list with repetitions, whatever it holds. */
    method WriteTuples(list: seq<Tuple>) returns (ok: bool)
      modifies this
      ensures ok ==> tuples == old(tuples) + ToSet(list)
      ensures old(tuples) <= tuples <= old(tuples) + ToSet(list)
      ensures ClearFrom(weather, old(requests)) ==> (ok <==> Acceptable(strict, list))
      ensures !Acceptable(strict, list) ==> !ok && tuples == old(tuples)
      ensures old(requests) <= requests
    {
      var failure := ServerWrite(list);
      if failure.None? {
        return true;
      }
      if !failure.value.AlreadyExists? {
        return false;
      }
      for i := 0 to |list|
        invariant tuples == old(tuples) + ToSet(list[..i]) && old(requests) <= requests
      {
        assert list[..i + 1] == list[..i] + [list[i]];
        assert ToSet(list[..i + 1]) == ToSet(list[..i]) + ToSet([list[i]]);
        assert ToSet(list[..i + 1]) <= ToSet(list);
        assert ToSet([list[i]]) == {list[i]};
        failure := ServerWrite([list[i]]);
        if failure.Some? && !failure.value.AlreadyExists? {
          return false;
        }
      }
      assert list[..|list|] == list;
      return true;
    }

    /** On success the tuples are gone, whether or not all were there before; on failure some may be. A
        strict server takes no empty list and no list with repetitions, whatever it holds. */
    method DeleteTuples(list: seq<Tuple>) returns (ok: bool)
      modifies this
      ensures ok ==> tuples == old(tuples) - ToSet(list)
      ensures old(tuples) - ToSet(list) <= tuples <= old(tuples)
      ensures ClearFrom(weather, old(requests)) ==> (ok <==> Acceptable(strict, list))
      ensures !Acceptable(strict, list) ==> !ok && tuples == old(tuples)
      ensures old(requests) <= requests
    {
      var failure := ServerDelete(list);
      if failure.None? {
        return true;
      }
      if !failure.value.DoesNotExist? {
        return false;
      }
      for i := 0 to |list|
        invariant tuples == old(tuples) - ToSet(list[..i]) && old(requests) <= requests
      {
        assert list[..i + 1] == list[..i] + [list[i]];
        assert ToSet(list[..i + 1]) == ToSet(list[..i]) + ToSet([list[i]]);
        assert ToSet(list[..i + 1]) <= ToSet(list);
        assert ToSet([list[i]]) == {list[i]};
        failure := ServerDelete([list[i]]);
        if failure.Some? && !failure.value.DoesNotExist? {
          return false;
        }
      }
      assert list[..|list|] == list;
      return true;
    }

    /** All tuples of one object and relation, if the server knows the relation. */
    method ReadTuples(target: string, relation: string) returns (list: seq<Tuple>, failure: Option<Failure>)
      modifies this`requests
      ensures failure.None? ==> ToSet(list) == Slice(tuples, target, relation) && NoRepeats(list) && relation in relations
      ensures failure == Some(RelationNotFound) ==> relation !in relations
      ensures ClearFrom(weather, old(requests)) ==> failure == if relation in relations then None else Some(RelationNotFound)
      ensures old(requests) <= requests
    {
      hide ToSet, NoRepeats;
      list := [];
      NothingListed();
      var w := weather(requests);
      requests := requests + 1;
      if !w.Works? {
        return list, Some(OtherFailure);
      }
      if relation !in relations {
        return list, Some(RelationNotFound);
      }
      var left := Slice(tuples, target, relation);
      while left != {}
        invariant left <= Slice(tuples, target, relation)
        invariant ToSet(list) == Slice(tuples, target, relation) - left && NoRepeats(list)
        invariant old(requests) <= requests
        decreases |left|
      {
        var t :| t in left;
        OneMore(list, t);
        left := left - {t};
        list := list + [t];
      }
      assert Slice(tuples, target, relation) - left == Slice(tuples, target, relation);
      return list, None;
    }
  }
}
