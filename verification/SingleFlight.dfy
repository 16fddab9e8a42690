/** Single-flight fetching, channel closing and undisturbed runs, over whole runs. */
module SingleFlight {
  import opened Values
  import opened CacheSpec
  import opened Flights
  import opened Calls
  import opened CallRuns

  // ---- Ownership, for every run, whatever the datastore answers ----

  lemma {:induction false} OwnedKept(s: System, step: Step)
    requires Owned(s.core) && Enabled(s, step)
    ensures Owned(Do(s, step).core)
  {
    match step
    case StoreWrite(m) => WriteOwned(s.core, m);
    case FeedReceive(n) => ReceiveOwned(s.core, n);
    case FeedPublish => PublishOwned(s.core);
    case FetchReply(f, a) => ReplyOwned(s.core, f, a);
    case FetchFinish(f) => FinishOwned(s.core, f);
    case Begin(c, keys) => LaunchOwned(s.core, c, keys);
    case Retry(c) => LaunchOwned(s.core, c, [NextKey(Top(s.calls[c]))]);
    case _ =>
  }

  lemma {:induction false} RunOwned(r: Run, t: nat)
    requires IsRun(r) && t < |r.states|
    ensures Owned(r.states[t].core)
  {
    if t > 0 {
      RunOwned(r, t - 1);
      assert Moves(r, t - 1);
      OwnedKept(r.states[t - 1], r.steps[t - 1]);
    }
  }

  /** The invalid state is unreachable, and a pending key belongs to exactly one fetch in flight. */
  lemma {:induction false} PendingKeyHasOneFlight(r: Run, t: nat, k: Key)
    requires IsRun(r) && t < |r.states|
    ensures StateOf(r.states[t].core.cache, k) != Invalid
    ensures k in r.states[t].core.cache.pending ==>
      exists f :: && f in r.states[t].core.flights && k in r.states[t].core.flights[f].keys
                  && forall g :: g in r.states[t].core.flights && g != f ==> k !in r.states[t].core.flights[g].keys
  {
    RunOwned(r, t);
    var c := r.states[t].core;
    if k in c.cache.pending {
      assert Claimed(c, k);
      var f :| f in c.flights && k in c.flights[f].keys;
      assert forall g :: g in c.flights && g != f ==> k !in c.flights[g].keys;
    }
  }

  /** Two fetches that are in flight at the same time share no key. */
  lemma {:induction false} FlightsShareNoKey(r: Run, t: nat, f: nat, g: nat, k: Key)
    requires IsRun(r) && t < |r.states| && f != g
    requires f in r.states[t].core.flights && g in r.states[t].core.flights
    requires k in r.states[t].core.flights[f].keys
    ensures k !in r.states[t].core.flights[g].keys
  {
    RunOwned(r, t);
  }

  /** Failed fetches leave no key behind: without a fetch in flight nothing is pending. */
  lemma {:induction false} NoFlightNoPending(r: Run, t: nat)
    requires IsRun(r) && t < |r.states|
    requires r.states[t].core.flights == map[]
    ensures r.states[t].core.cache.pending == map[]
  {
    RunOwned(r, t);
    assert forall k :: k in r.states[t].core.cache.pending ==> Claimed(r.states[t].core, k);
  }

  /** Over a whole run each key is covered by at most one successful fetch. */
  lemma {:induction false} FetchedAtMostOnce(r: Run, t: nat, i: nat, j: nat)
    requires IsRun(r) && t < |r.states|
    requires i < |r.states[t].core.served| && j < |r.states[t].core.served|
    requires r.states[t].core.served[i] == r.states[t].core.served[j]
    ensures i == j
  {
    RunOwned(r, t);
  }

  lemma {:induction false} NeverEvicted(r: Run, t: nat, u: nat)
    requires IsRun(r) && t <= u < |r.states|
    ensures r.states[t].core.cache.data.Keys <= r.states[u].core.cache.data.Keys
    decreases u
  {
    if t < u {
      NeverEvicted(r, t, u - 1);
      RunOwned(r, u - 1);
      assert Moves(r, u - 1);
      StepGrows(r.states[u - 1], r.steps[u - 1]);
    }
  }

  /** A fetch that starts after a key was cached does not ask for that key. */
  lemma {:induction false} NeverRefetched(r: Run, t: nat, u: nat, f: nat, k: Key)
    requires IsRun(r) && t <= u < |r.steps|
    requires k in r.states[t].core.cache.data
    requires f !in r.states[u].core.flights && f in r.states[u + 1].core.flights
    ensures k !in r.states[u + 1].core.flights[f].keys
  {
    NeverEvicted(r, t, u);
    RunOwned(r, u);
    assert Moves(r, u);
    var s := r.states[u];
    match r.steps[u]
    case Begin(c, keys) => LaunchAsksMissing(s.core, c, keys, k);
    case Retry(c) => LaunchAsksMissing(s.core, c, [NextKey(Top(s.calls[c]))], k);
    case _ =>
  }

  lemma {:induction false} LaunchAsksMissing(c: Core, owner: nat, keys: seq<Key>, k: Key)
    requires Owned(c) && k in c.cache.data
    ensures c.nextFlight !in c.flights
    ensures c.nextFlight in Launch(c, owner, keys).flights ==>
      k !in Launch(c, owner, keys).flights[c.nextFlight].keys
  {
    LaunchCache(c, owner, keys);
    assert k !in Elements(Missing(c, keys));
  }

  // ---- Channels ----

  /** A section of the cache keeps a pending key on its channel, or closes that channel. */
  ghost predicate ChannelStep(c: CacheState, c': CacheState) {
    && c.made <= c'.made && c.closed <= c'.closed
    && forall k :: k in c'.pending ==> (k in c.pending && c'.pending[k] == c.pending[k]) || c'.pending[k] >= c.made
  }

  lemma {:induction false} StepChannels(s: System, step: Step)
    requires Owned(s.core) && Enabled(s, step)
    ensures ChannelStep(s.core.cache, Do(s, step).core.cache)
    ensures Do(s, step).core.cache.closed - s.core.cache.closed <= s.core.cache.pending.Values
  {
    match step
    case Begin(c, keys) => LaunchChannels(s.core, c, keys);
    case Retry(c) => LaunchChannels(s.core, c, [NextKey(Top(s.calls[c]))]);
    case _ =>
  }

  lemma {:induction false} LaunchChannels(c: Core, owner: nat, keys: seq<Key>)
    requires Valid(c.cache)
    ensures ChannelStep(c.cache, Launch(c, owner, keys).cache)
    ensures Launch(c, owner, keys).cache.closed == c.cache.closed
  {
    NotExistToPendingChans(c.cache, keys);
    NotExistToPendingMoves(c.cache, keys);
  }

  lemma {:induction false} RunValid(r: Run, t: nat)
    requires IsRun(r) && t < |r.states|
    ensures Valid(r.states[t].core.cache)
  {
    RunOwned(r, t);
  }

  lemma {:induction false} RunChannels(r: Run, t: nat)
    requires IsRun(r) && t < |r.steps|
    ensures var c, c' := r.states[t].core.cache, r.states[t + 1].core.cache;
      ChannelStep(c, c') && c'.closed - c.closed <= c.pending.Values
  {
    RunOwned(r, t);
    assert Moves(r, t);
    StepChannels(r.states[t], r.steps[t]);
  }

  /**
   * A channel is closed by the step in which its key leaves `pending`, and only then; no step
   * closes a channel that is closed already.
   */
  lemma {:induction false} ChannelClosedOnce(r: Run, t: nat, k: Key)
    requires IsRun(r) && t < |r.steps| && k in r.states[t].core.cache.pending
    ensures var c, c' := r.states[t].core.cache, r.states[t + 1].core.cache;
      && c.pending[k] !in c.closed
      && (c.pending[k] in c'.closed <==> k !in c'.pending || c'.pending[k] != c.pending[k])
      && c'.closed - c.closed <= c.pending.Values
  {
    RunValid(r, t);
    RunValid(r, t + 1);
    RunChannels(r, t);
    ClosedWhenLeaving(r.states[t].core.cache, r.states[t + 1].core.cache, k);
  }

  // ---- Calls whose keys no fetch fails on ----

  /** The step ends a fetch that failed and holds one of these keys. */
  ghost predicate FailsFor(s: System, step: Step, keys: seq<Key>) {
    && step.FetchFinish? && CanFinish(s.core, step.flight) && !s.core.flights[step.flight].answer.Answered?
    && exists k :: k in keys && k in s.core.flights[step.flight].keys
  }

  /** The call never gets near the not-exist, invalid or retry branch. */
  ghost predicate Smooth(c: Core, id: nat, call: Call) {
    match call
    case Running(frames) =>
      && |frames| == 1
      && (forall k :: k in frames[0].keys ==> Held(c, k))
      && match frames[0].phase {
           case Fetching(f) => FetchesFor(c, id, f, frames[0].keys)
           case Reading => true
           case Waiting(ch) =>
             && HasNext(frames[0])
             && var k := NextKey(frames[0]); k in c.cache.data || (k in c.cache.pending && c.cache.pending[k] == ch)
           case _ => false
         }
    case Returned(_, _) => true
    case Failed(why) => why == Cancelled
  }

  /** The fetch in flight belongs to the call and holds one of its keys. */
  ghost predicate FetchesFor(c: Core, id: nat, f: nat, keys: seq<Key>) {
    && f in c.flights && c.flights[f].owner == id
    && exists k :: k in keys && k in c.flights[f].keys
  }

  /** These keys stay cached, or pending on the same channel, until they are cached. */
  ghost predicate Holds(c: CacheState, c': CacheState, keys: seq<Key>) {
    forall k :: k in keys ==>
      && (k in c.data ==> k in c'.data)
      && (k in c.pending ==> k in c'.data || (k in c'.pending && c'.pending[k] == c.pending[k]))
  }

  lemma {:induction false} LaunchHolds(c: Core, owner: nat, asked: seq<Key>, keys: seq<Key>)
    requires Owned(c)
    ensures Holds(c.cache, Launch(c, owner, asked).cache, keys)
    ensures forall k :: k in asked ==> Held(Launch(c, owner, asked), k)
  {
    LaunchCache(c, owner, asked);
    NotExistToPendingChans(c.cache, asked);
    forall k | k in asked ensures Held(Launch(c, owner, asked), k) {
      assert k in Elements(asked);
    }
  }

  lemma {:induction false} StepHolds(s: System, step: Step, keys: seq<Key>)
    requires Owned(s.core) && Enabled(s, step) && !FailsFor(s, step, keys)
    ensures Holds(s.core.cache, Do(s, step).core.cache, keys)
  {
    match step
    case Begin(c, asked) => LaunchHolds(s.core, c, asked, keys);
    case Retry(c) => LaunchHolds(s.core, c, [NextKey(Top(s.calls[c]))], keys);
    case _ =>
  }

  /** A fetch that does not end in this step goes on with its owner and its keys. */
  lemma {:induction false} FlightStays(s: System, step: Step, f: nat)
    requires Owned(s.core) && Enabled(s, step) && f in s.core.flights && step != FetchFinish(f)
    ensures f in Do(s, step).core.flights
    ensures Do(s, step).core.flights[f].owner == s.core.flights[f].owner
    ensures Do(s, step).core.flights[f].keys == s.core.flights[f].keys
  {
    assert f < s.core.nextFlight;
  }

  /** A call that the step leaves alone stays smooth. */
  lemma {:induction false} OthersSmooth(s: System, step: Step, c: nat)
    requires Owned(s.core) && Enabled(s, step) && c in s.calls && Smooth(s.core, c, s.calls[c])
    requires Active(s, c) ==> !FailsFor(s, step, s.calls[c].frames[0].keys)
    requires Do(s, step).calls[c] == s.calls[c]
    ensures Smooth(Do(s, step).core, c, s.calls[c])
  {
    if Active(s, c) {
      var fr := s.calls[c].frames[0];
      StepHolds(s, step, fr.keys);
      HeldKept(s.core, Do(s, step).core, fr.keys);
      if fr.phase.Fetching? {
        FlightStays(s, step, fr.phase.flight);
      } else if fr.phase.Waiting? {
        assert NextKey(fr) in fr.keys;
      }
    }
  }

  lemma {:induction false} HeldKept(c: Core, c': Core, keys: seq<Key>)
    requires Holds(c.cache, c'.cache, keys) && forall k :: k in keys ==> Held(c, k)
    ensures forall k :: k in keys ==> Held(c', k)
  {
    forall k | k in keys ensures Held(c', k) {
      assert Held(c, k);
    }
  }

  lemma {:induction false} OwnStepSmooth(s: System, step: Step, c: nat)
    requires Owned(s.core) && Enabled(s, step) && Active(s, c) && Smooth(s.core, c, s.calls[c])
    requires !FailsFor(s, step, s.calls[c].frames[0].keys)
    requires Do(s, step).calls[c] != s.calls[c]
    ensures Smooth(Do(s, step).core, c, Do(s, step).calls[c])
  {
    var fr := s.calls[c].frames[0];
    StepHolds(s, step, fr.keys);
    HeldKept(s.core, Do(s, step).core, fr.keys);
    if step.Read? {
      assert NextKey(fr) in fr.keys && Held(s.core, NextKey(fr));
    }
  }

  lemma {:induction false} BeginSmooth(s: System, c: nat, keys: seq<Key>)
    requires Owned(s.core) && Enabled(s, Begin(c, keys))
    ensures Smooth(Do(s, Begin(c, keys)).core, c, Do(s, Begin(c, keys)).calls[c])
  {
    LaunchHolds(s.core, c, keys, keys);
    LaunchCache(s.core, c, keys);
    var missing := Missing(s.core, keys);
    if missing != [] {
      assert missing[0] in Elements(missing) && missing[0] in Elements(keys);
      assert missing[0] in keys && missing[0] in missing;
    }
  }

  /** Between the start of the call and state `t` no fetch that holds one of its keys fails. */
  ghost predicate NoFailureFor(r: Run, b: nat, t: nat, keys: seq<Key>)
    requires IsRun(r) && t < |r.states|
  {
    forall u :: b < u < t ==> !FailsFor(r.states[u], r.steps[u], keys)
  }

  /**
   * A call whose keys no fetch fails on waits, reads, is cancelled or returns, and nothing else,
   * whatever happens to other keys.
   */
  lemma {:induction false} UndisturbedCallIsSmooth(r: Run, b: nat, t: nat, c: nat, keys: seq<Key>)
    requires IsRun(r) && Begins(r, b, c, keys) && b < t < |r.states| && NoFailureFor(r, b, t, keys)
    ensures c in r.states[t].calls && Smooth(r.states[t].core, c, r.states[t].calls[c])
    decreases t
  {
    if t == b + 1 {
      RunOwned(r, b);
      assert Moves(r, b);
      BeginSmooth(r.states[b], c, keys);
    } else {
      UndisturbedCallIsSmooth(r, b, t - 1, c, keys);
      CallStays(r, b, t - 1, c, keys);
      RunOwned(r, t - 1);
      assert Moves(r, t - 1) && !FailsFor(r.states[t - 1], r.steps[t - 1], keys);
      SmoothKept(r.states[t - 1], r.steps[t - 1], c, keys);
    }
  }

  lemma {:induction false} SmoothKept(s: System, step: Step, c: nat, keys: seq<Key>)
    requires Owned(s.core) && Enabled(s, step) && !FailsFor(s, step, keys)
    requires c in s.calls && Asks(s.calls[c], keys) && Smooth(s.core, c, s.calls[c])
    ensures c in Do(s, step).calls && Smooth(Do(s, step).core, c, Do(s, step).calls[c])
  {
    if Do(s, step).calls[c] == s.calls[c] {
      OthersSmooth(s, step, c);
    } else {
      OwnStepSmooth(s, step, c);
    }
  }

  // ---- Failures by fetches of other calls ----

  /** A fetch belongs to a call; while that call runs, it waits for this fetch. */
  ghost predicate Awaited(s: System, f: nat)
    requires f in s.core.flights
  {
    var c := s.core.flights[f].owner;
    c in s.calls && (Active(s, c) ==> Top(s.calls[c]).phase == Fetching(f))
  }

  ghost predicate AllAwaited(s: System) {
    forall f :: f in s.core.flights ==> Awaited(s, f)
  }

  lemma {:induction false} AwaitedKept(s: System, step: Step, f: nat)
    requires AllAwaited(s) && Enabled(s, step) && f in s.core.flights && f in Do(s, step).core.flights
    requires f < s.core.nextFlight
    ensures Awaited(Do(s, step), f)
  {
    assert Awaited(s, f);
    if step.FetchFinish? {
      assert Awaited(s, step.flight);
    }
  }

  lemma {:induction false} StepAwaited(s: System, step: Step)
    requires Owned(s.core) && AllAwaited(s) && Enabled(s, step)
    ensures AllAwaited(Do(s, step))
  {
    forall f | f in Do(s, step).core.flights ensures Awaited(Do(s, step), f) {
      if f in s.core.flights {
        AwaitedKept(s, step, f);
      }
    }
  }

  lemma {:induction false} RunStepAwaited(r: Run, t: nat)
    requires IsRun(r) && t < |r.steps| && AllAwaited(r.states[t])
    ensures AllAwaited(r.states[t + 1])
  {
    RunOwned(r, t);
    assert Moves(r, t);
    StepAwaited(r.states[t], r.steps[t]);
  }

  /** In every run a running call has at most one fetch of its own in flight, the one it waits for. */
  lemma {:induction false} OwnFetchIsAwaited(r: Run, t: nat)
    requires IsRun(r) && t < |r.states|
    ensures AllAwaited(r.states[t])
  {
    if t > 0 {
      OwnFetchIsAwaited(r, t - 1);
      RunStepAwaited(r, t - 1);
    }
  }

  /** The step ends a failed fetch of another call that holds one of these keys. */
  ghost predicate FailsByOther(s: System, step: Step, c: nat, keys: seq<Key>) {
    FailsFor(s, step, keys) && s.core.flights[step.flight].owner != c
  }

  /** The call is smooth, or its own fetch has failed. */
  ghost predicate SmoothOrFailed(s: System, c: nat) {
    c in s.calls && (Smooth(s.core, c, s.calls[c]) || s.calls[c] == Failed(FetchFailed))
  }

  lemma {:induction false} SmoothOrFailedKept(s: System, step: Step, c: nat, keys: seq<Key>)
    requires Owned(s.core) && AllAwaited(s) && Enabled(s, step) && !FailsByOther(s, step, c, keys)
    requires SmoothOrFailed(s, c) && Asks(s.calls[c], keys)
    ensures SmoothOrFailed(Do(s, step), c)
  {
    if s.calls[c].Running? && FailsFor(s, step, keys) {
      assert Awaited(s, step.flight);
    } else if s.calls[c].Running? {
      SmoothKept(s, step, c, keys);
    }
  }

  /** As long as only its own fetches fail, a call is smooth or fails with the error of its fetch. */
  lemma {:induction false} OnlyOwnFailures(r: Run, b: nat, t: nat, c: nat, keys: seq<Key>)
    requires IsRun(r) && Begins(r, b, c, keys) && b < t < |r.states|
    requires forall u :: b < u < t ==> !FailsByOther(r.states[u], r.steps[u], c, keys)
    ensures SmoothOrFailed(r.states[t], c)
    decreases t
  {
    if t == b + 1 {
      UndisturbedCallIsSmooth(r, b, t, c, keys);
    } else {
      OnlyOwnFailures(r, b, t - 1, c, keys);
      CallStays(r, b, t - 1, c, keys);
      RunOwned(r, t - 1);
      OwnFetchIsAwaited(r, t - 1);
      assert Moves(r, t - 1) && !FailsByOther(r.states[t - 1], r.steps[t - 1], c, keys);
      SmoothOrFailedKept(r.states[t - 1], r.steps[t - 1], c, keys);
    }
  }

  /**
   * A call fails, other than by giving up, only if a fetch that holds one of its keys failed during
   * the call. If the call fails because a key is not in the cache, that was a fetch of another call.
   */
  lemma {:induction false} FailureHasCause(r: Run, b: nat, t: nat, c: nat, keys: seq<Key>) returns (u: nat)
    requires IsRun(r) && Begins(r, b, c, keys) && b < t < |r.states|
    requires c in r.states[t].calls && r.states[t].calls[c].Failed? && r.states[t].calls[c].why != Cancelled
    ensures b < u < t && FailsFor(r.states[u], r.steps[u], keys)
    ensures r.states[t].calls[c].why != FetchFailed ==> FailsByOther(r.states[u], r.steps[u], c, keys)
  {
    if r.states[t].calls[c].why == FetchFailed {
      if NoFailureFor(r, b, t, keys) {
        UndisturbedCallIsSmooth(r, b, t, c, keys);
        assert false;
      }
      u :| b < u < t && FailsFor(r.states[u], r.steps[u], keys);
    } else {
      if forall u :: b < u < t ==> !FailsByOther(r.states[u], r.steps[u], c, keys) {
        OnlyOwnFailures(r, b, t, c, keys);
        assert false;
      }
      u :| b < u < t && FailsByOther(r.states[u], r.steps[u], c, keys);
    }
  }

  // ---- Runs in which no fetch fails ----

  ghost predicate NoFetchFails(r: Run) {
    forall i :: 0 <= i < |r.steps| && r.steps[i].FetchReply? ==> !r.steps[i].answer.Refused?
  }

  lemma {:induction false} NothingRefused(r: Run, t: nat, f: nat)
    requires IsRun(r) && NoFetchFails(r) && t < |r.states| && f in r.states[t].core.flights
    ensures !r.states[t].core.flights[f].answer.Refused?
  {
    if t > 0 {
      assert Moves(r, t - 1);
      if f in r.states[t - 1].core.flights {
        NothingRefused(r, t - 1, f);
      }
    }
  }

  /** In a run where no fetch fails every call is smooth. */
  lemma {:induction false} UndisturbedRunsAreSmooth(r: Run, b: nat, t: nat, c: nat, keys: seq<Key>)
    requires IsRun(r) && NoFetchFails(r) && Begins(r, b, c, keys) && b < t < |r.states|
    ensures c in r.states[t].calls && Smooth(r.states[t].core, c, r.states[t].calls[c])
  {
    forall u | b < u < t ensures !FailsFor(r.states[u], r.steps[u], keys) {
      assert Moves(r, u);
      if r.steps[u].FetchFinish? {
        NothingRefused(r, u, r.steps[u].flight);
      }
    }
    UndisturbedCallIsSmooth(r, b, t, c, keys);
  }
}
