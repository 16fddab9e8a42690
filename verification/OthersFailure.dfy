/**
 * Why the not-exist branch of the read loop is not dead code: a call that asks for a key which
 * another call is fetching fails if that fetch fails before the read, without a fetch of its own.
 */
module OthersFailure {
  import opened Values
  import opened CacheSpec
  import opened Flights
  import opened Calls
  import opened CallRuns

  const K: Key := "a/1/k"

  /** The fetch of call 0 holds `k`. */
  ghost predicate Fetched(s: System, answer: Answer) {
    && s.core.cache == CacheState(map[], map[K := 0], {}, 1)
    && s.core.flights == map[0 := Flight(0, [K], answer)] && s.core.nextFlight == 1
  }

  /** Call 1 is in its read loop; only one fetch was ever started. */
  ghost predicate SecondReads(s: System) {
    s.core.nextFlight == 1 && 1 in s.calls && s.calls[1] == Running([Frame([K], [], Reading)])
  }

  lemma {:induction false} FirstAsks(s: System)
    requires s == Init(map[])
    ensures var s' := Do(s, Begin(0, [K])); Fetched(s', Outstanding) && s'.calls.Keys == {0}
  {
    OneMissing(EMPTY, K);
    assert (map[])[K := 0] == map[K := 0];
  }

  lemma {:induction false} SecondAsks(s: System)
    requires Fetched(s, Outstanding) && s.calls.Keys == {0}
    ensures Enabled(s, Begin(1, [K]))
    ensures var s' := Do(s, Begin(1, [K])); Fetched(s', Outstanding) && SecondReads(s')
  {
    assert [K][..|[K]| - 1] == [];
    assert NotExistToPending(s.core.cache, []) == (s.core.cache, []);
    assert NotExistToPending(s.core.cache, [K]) == (s.core.cache, []);
  }

  lemma {:induction false} Refuse(s: System)
    requires Fetched(s, Outstanding) && SecondReads(s)
    ensures Enabled(s, FetchReply(0, Refused)) && Honest(s, FetchReply(0, Refused))
    ensures var s' := Do(s, FetchReply(0, Refused)); Fetched(s', Refused) && SecondReads(s')
  {
  }

  lemma {:induction false} Give(s: System)
    requires Fetched(s, Refused) && SecondReads(s)
    ensures Enabled(s, FetchFinish(0))
    ensures var s' := Do(s, FetchFinish(0)); StateOf(s'.core.cache, K) == NotExist && SecondReads(s')
  {
    assert K in Elements([K]);
  }

  lemma {:induction false} ReadFails(s: System)
    requires StateOf(s.core.cache, K) == NotExist && SecondReads(s)
    ensures Enabled(s, Read(1)) && Do(s, Read(1)).calls[1] == Failed(NotInCache)
    ensures Do(s, Read(1)).core.nextFlight == 1
  {
  }

  lemma {:induction false} BothAsk() returns (r: Run)
    ensures HonestRun(r) && Fetched(Last(r), Outstanding) && SecondReads(Last(r))
  {
    r := Run([Init(map[])], []);
    FirstAsks(Last(r));
    r := ExtendRun(r, Begin(0, [K]));
    SecondAsks(Last(r));
    r := ExtendRun(r, Begin(1, [K]));
  }

  /** The one fetch, started by call 0, fails, and call 1 fails because of it. */
  lemma {:induction false} OthersFailureReachesNotExist() returns (r: Run)
    ensures HonestRun(r) && Last(r).core.nextFlight == 1
    ensures 1 in Last(r).calls && Last(r).calls[1] == Failed(NotInCache)
  {
    r := BothAsk();
    Refuse(Last(r));
    r := ExtendRun(r, FetchReply(0, Refused));
    Give(Last(r));
    r := ExtendRun(r, FetchFinish(0));
    ReadFails(Last(r));
    r := ExtendRun(r, Read(1));
  }

  // ---- No bound on the retries ----

  /** Call 1 waits in its `n`-th frame for a fetch of another call that holds `K`. */
  ghost predicate Waits(s: System, n: nat, f: nat, owner: nat, answer: Answer) {
    && K !in s.core.cache.data && K in s.core.cache.pending
    && f in s.core.flights && s.core.flights[f] == Flight(owner, [K], answer) && owner != 1
    && InFrame(s, n, Waiting(s.core.cache.pending[K]))
  }

  ghost predicate InFrame(s: System, n: nat, phase: Phase) {
    && n > 0 && 1 in s.calls && s.calls[1].Running? && |s.calls[1].frames| == n
    && Top(s.calls[1]) == Frame([K], [], phase)
  }

  lemma {:induction false} FetchRefused(s: System, n: nat, f: nat, owner: nat)
    requires Waits(s, n, f, owner, Outstanding)
    ensures Enabled(s, FetchReply(f, Refused)) && Honest(s, FetchReply(f, Refused))
    ensures Waits(Do(s, FetchReply(f, Refused)), n, f, owner, Refused)
  {
  }

  /** The channel that call 1 waits for is closed, and `K` is not in the cache. */
  ghost predicate Dropped(s: System, n: nat, ch: Chan) {
    StateOf(s.core.cache, K) == NotExist && ch in s.core.cache.closed && InFrame(s, n, Waiting(ch))
  }

  lemma {:induction false} FetchDropped(s: System, n: nat, f: nat, owner: nat)
    requires Waits(s, n, f, owner, Refused)
    ensures Enabled(s, FetchFinish(f)) && Honest(s, FetchFinish(f))
    ensures Dropped(Do(s, FetchFinish(f)), n, s.core.cache.pending[K])
  {
    assert K in Elements([K]);
  }

  /** Another call fetches `K` again before call 1 wakes up. */
  ghost predicate Refetched(s: System, f: nat, owner: nat) {
    && K !in s.core.cache.data && K in s.core.cache.pending
    && f in s.core.flights && s.core.flights[f] == Flight(owner, [K], Outstanding) && owner != 1
  }

  lemma {:induction false} FetchAgain(s: System, n: nat, ch: Chan, c: nat)
    requires Dropped(s, n, ch) && c !in s.calls
    ensures Enabled(s, Begin(c, [K])) && Honest(s, Begin(c, [K]))
    ensures var s' := Do(s, Begin(c, [K]));
      Refetched(s', s.core.nextFlight, c) && ch in s'.core.cache.closed && InFrame(s', n, Waiting(ch))
  {
    OneMissing(s.core.cache, K);
  }

  lemma {:induction false} WakesInVain(s: System, n: nat, ch: Chan, f: nat, owner: nat)
    requires Refetched(s, f, owner) && ch in s.core.cache.closed && InFrame(s, n, Waiting(ch))
    ensures Enabled(s, Wake(1)) && Honest(s, Wake(1))
    ensures Refetched(Do(s, Wake(1)), f, owner) && InFrame(Do(s, Wake(1)), n, Retrying)
  {
  }

  lemma {:induction false} CallsAgain(s: System, n: nat, f: nat, owner: nat)
    requires Refetched(s, f, owner) && InFrame(s, n, Retrying)
    ensures Enabled(s, Retry(1)) && Honest(s, Retry(1))
    ensures Refetched(Do(s, Retry(1)), f, owner) && InFrame(Do(s, Retry(1)), n + 1, Reading)
  {
    NothingMissing(s.core.cache);
  }

  lemma {:induction false} NothingMissing(c: CacheState)
    requires StateOf(c, K) != NotExist
    ensures NotExistToPending(c, [K]) == (c, [])
  {
    assert [K][..|[K]| - 1] == [];
    assert NotExistToPending(c, []) == (c, []);
  }

  lemma {:induction false} WaitsAgain(s: System, n: nat, f: nat, owner: nat)
    requires Refetched(s, f, owner) && InFrame(s, n, Reading)
    ensures Enabled(s, Read(1)) && Honest(s, Read(1)) && Waits(Do(s, Read(1)), n, f, owner, Outstanding)
  {
  }

  lemma {:induction false} FreshCall(s: System) returns (c: nat)
    ensures c !in s.calls
  {
    c := Above(s.calls.Keys);
  }

  lemma {:induction false} Above(ids: set<nat>) returns (c: nat)
    ensures forall x :: x in ids ==> x < c
  {
    if ids == {} {
      c := 0;
    } else {
      var x :| x in ids;
      var d := Above(ids - {x});
      c := if d > x then d else x + 1;
      forall y | y in ids ensures y < c {
        assert y == x || y in ids - {x};
      }
    }
  }

  lemma {:induction false} FailOnce(r: Run, n: nat, f: nat, owner: nat) returns (r': Run, ch: Chan)
    requires HonestRun(r) && Waits(Last(r), n, f, owner, Outstanding)
    ensures HonestRun(r') && Dropped(Last(r'), n, ch)
  {
    FetchRefused(Last(r), n, f, owner);
    r' := ExtendRun(r, FetchReply(f, Refused));
    ch := Last(r').core.cache.pending[K];
    FetchDropped(Last(r'), n, f, owner);
    r' := ExtendRun(r', FetchFinish(f));
  }

  lemma {:induction false} RetryOnce(r: Run, n: nat, ch: Chan) returns (r': Run, f: nat, owner: nat)
    requires HonestRun(r) && Dropped(Last(r), n, ch)
    ensures HonestRun(r') && Waits(Last(r'), n + 1, f, owner, Outstanding)
  {
    owner := FreshCall(Last(r));
    f := Last(r).core.nextFlight;
    FetchAgain(Last(r), n, ch, owner);
    r' := ExtendRun(r, Begin(owner, [K]));
    WakesInVain(Last(r'), n, ch, f, owner);
    r' := ExtendRun(r', Wake(1));
    CallsAgain(Last(r'), n, f, owner);
    r' := ExtendRun(r', Retry(1));
    WaitsAgain(Last(r'), n + 1, f, owner);
    r' := ExtendRun(r', Read(1));
  }

  lemma {:induction false} FirstWaits() returns (r: Run)
    ensures HonestRun(r) && Waits(Last(r), 1, 0, 0, Outstanding)
  {
    r := BothAsk();
    r := ExtendRun(r, Read(1));
  }

  lemma {:induction false} WaitsInFrame(n: nat) returns (r: Run, f: nat, owner: nat)
    requires n > 0
    ensures HonestRun(r) && Waits(Last(r), n, f, owner, Outstanding)
  {
    if n == 1 {
      r := FirstWaits();
      f, owner := 0, 0;
    } else {
      var before, g, other := WaitsInFrame(n - 1);
      var failed, ch := FailOnce(before, n - 1, g, other);
      r, f, owner := RetryOnce(failed, n - 1, ch);
    }
  }

  /** For every bound there is a run in which one call has more calls of `GetOrSet` nested in it. */
  lemma {:induction false} RetriesAreUnbounded(n: nat) returns (r: Run)
    ensures HonestRun(r) && 1 in Last(r).calls && Last(r).calls[1].Running? && |Last(r).calls[1].frames| > n
  {
    var f, owner;
    r, f, owner := WaitsInFrame(n + 1);
  }
}
