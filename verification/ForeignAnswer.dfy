/**
 * Why freshness needs a datastore that answers only the keys it was asked for: the cache
 * accepts any pending key of an answer, also one that another fetch is responsible for.
 */
module ForeignAnswer {
  import opened Values
  import opened StoreLog
  import opened CacheSpec
  import opened Flights
  import opened Freshness
  import opened Calls
  import opened CallRuns

  const BASE: map<Key, Raw> := map["a/1/k" := Doc(Int(0))]
  const CHANGE: Message := map["a/1/k" := Doc(Int(1))]

  const X: Key := "a/1/x"
  const K: Key := "a/1/k"

  /** Call 0 has asked for `x`. */
  ghost predicate XPending(s: System, answer: Answer, log: seq<Message>, applied: nat) {
    && s.calls.Keys == {0} && s.core.nextFlight == 1
    && s.core.flights == map[0 := Flight(0, [X], answer)]
    && s.core.cache == CacheState(map[], map[X := 0], {}, 1)
    && s.core.store == Store(BASE, log) && s.core.applied == applied && s.core.unpublished == None
  }

  lemma {:induction false} AskForX(s: System)
    requires s == Init(BASE)
    ensures XPending(Do(s, Begin(0, [X])), Outstanding, [], 0)
  {
    OneMissing(EMPTY, X);
    assert (map[])[X := 0] == map[X := 0];
  }

  /** The answer also holds `k`. */
  lemma {:induction false} AnswerXAndK(s: System)
    requires XPending(s, Outstanding, [], 0)
    ensures Enabled(s, FetchReply(0, Answered(BASE)))
    ensures XPending(Do(s, FetchReply(0, Answered(BASE))), Answered(BASE), [], 0)
  {
  }

  lemma {:induction false} ChangeK(s: System)
    requires XPending(s, Answered(BASE), [], 0)
    ensures XPending(Do(s, StoreWrite(CHANGE)), Answered(BASE), [CHANGE], 0)
  {
  }

  /** The update is applied while `k` is neither cached nor pending. */
  lemma {:induction false} ApplyChange(s: System)
    requires XPending(s, Answered(BASE), [CHANGE], 0)
    ensures Enabled(s, FeedReceive(1))
    ensures XPending(Do(s, FeedReceive(1)).(core := Do(s, FeedReceive(1)).core.(unpublished := None)),
                     Answered(BASE), [CHANGE], 1)
  {
    assert s.core.store.log[0..1] == [CHANGE] && [CHANGE][..0] == [];
    assert Merge([CHANGE]) == CHANGE;
    assert Restrict(CHANGE, {X}) == map[];
    assert Assign(s.core.cache, map[]) == s.core.cache;
  }

  /** Call 1 asks for `k`; its own fetch is still outstanding. */
  ghost predicate BothPending(s: System) {
    && 0 in s.core.flights && s.core.flights[0] == Flight(0, [X], Answered(BASE))
    && s.core.cache == CacheState(map[], map[X := 0, K := 1], {}, 2)
    && s.core.store == Store(BASE, [CHANGE]) && s.core.applied == 1
  }

  lemma {:induction false} AskForK(s: System)
    requires s.calls.Keys == {0} && s.core.nextFlight == 1
    requires s.core.flights == map[0 := Flight(0, [X], Answered(BASE))]
    requires s.core.cache == CacheState(map[], map[X := 0], {}, 1)
    requires s.core.store == Store(BASE, [CHANGE]) && s.core.applied == 1
    ensures BothPending(Do(s, Begin(1, [K])))
  {
    OneMissing(s.core.cache, K);
    assert (map[X := 0])[K := 1] == map[X := 0, K := 1];
  }

  /** The first fetch finishes and installs the old `k`. */
  lemma {:induction false} FinishX(s: System)
    requires BothPending(s)
    ensures Enabled(s, FetchFinish(0))
    ensures !CacheFresh(Do(s, FetchFinish(0)).core)
  {
    var c := Do(s, FetchFinish(0)).core;
    assert Installed(s.core.cache, [X], BASE)[K] == Doc(Int(0));
    assert c.cache.data[K] == Doc(Int(0));
    assert c.store.At(K, 1) == Doc(Int(1));
    assert !Fresh(c.store, K, Doc(Int(0)), 1);
  }

  lemma {:induction false} AnsweredEarly() returns (r: Run)
    ensures IsRun(r) && XPending(Last(r), Answered(BASE), [], 0)
  {
    r := Run([Init(BASE)], []);
    AskForX(Last(r));
    r := ExtendRun(r, Begin(0, [X]));
    AnswerXAndK(Last(r));
    r := ExtendRun(r, FetchReply(0, Answered(BASE)));
  }

  /** A truthful datastore that answers a key it was not asked for can leave stale data in the cache. */
  lemma {:induction false} ForeignAnswerGoesStale() returns (r: Run)
    ensures IsRun(r) && !CacheFresh(Last(r).core)
  {
    r := AnsweredEarly();
    ChangeK(Last(r));
    r := ExtendRun(r, StoreWrite(CHANGE));
    ApplyChange(Last(r));
    r := ExtendRun(r, FeedReceive(1));
    AskForK(Last(r));
    r := ExtendRun(r, Begin(1, [K]));
    FinishX(Last(r));
    r := ExtendRun(r, FetchFinish(0));
  }
}
