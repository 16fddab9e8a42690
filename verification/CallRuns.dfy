/** What holds of every call in every run, whatever the interleaving. */
module CallRuns {
  import opened Values
  import opened StoreLog
  import opened CacheSpec
  import opened Flights
  import opened Freshness
  import opened Calls

  // ---- Runs ----

  /** `states[i + 1]` is reached from `states[i]` by `steps[i]`. */
  datatype Run = Run(states: seq<System>, steps: seq<Step>)

  ghost predicate IsRun(r: Run) {
    && |r.states| == |r.steps| + 1
    && (exists base :: r.states[0] == Init(base))
    && forall i :: 0 <= i < |r.steps| ==> Moves(r, i)
  }

  ghost predicate Moves(r: Run, i: nat)
    requires i < |r.steps| && |r.states| == |r.steps| + 1
  {
    Enabled(r.states[i], r.steps[i]) && r.states[i + 1] == Do(r.states[i], r.steps[i])
  }

  ghost predicate HonestRun(r: Run) {
    IsRun(r) && forall i :: 0 <= i < |r.steps| ==> HonestMove(r, i)
  }

  ghost predicate HonestMove(r: Run, i: nat)
    requires i < |r.steps| && |r.states| == |r.steps| + 1
  {
    Moves(r, i) && Honest(r.states[i], r.steps[i])
  }

  ghost function Last(r: Run): System
    requires IsRun(r)
  {
    r.states[|r.states| - 1]
  }

  /** A run can go on with every step that is enabled in its last state. */
  lemma {:induction false} ExtendRun(r: Run, step: Step) returns (r': Run)
    requires IsRun(r) && Enabled(Last(r), step)
    ensures r' == Run(r.states + [Do(Last(r), step)], r.steps + [step])
    ensures IsRun(r') && Last(r') == Do(Last(r), step)
    ensures HonestRun(r) && Honest(Last(r), step) ==> HonestRun(r')
  {
    r' := Run(r.states + [Do(Last(r), step)], r.steps + [step]);
    forall i | 0 <= i < |r'.steps| ensures Moves(r', i) {
      assert i < |r.steps| ==> Moves(r, i);
    }
    assert r'.states[0] == r.states[0];
    if HonestRun(r) && Honest(Last(r), step) {
      forall i | 0 <= i < |r'.steps| ensures HonestMove(r', i) {
        assert i < |r.steps| ==> HonestMove(r, i);
      }
    }
  }

  // ---- The state of a call ----

  ghost predicate FrameOk(cache: CacheState, fr: Frame) {
    && |fr.values| <= |fr.keys|
    && (forall j :: 0 <= j < |fr.values| ==> fr.keys[j] in cache.data)
    && (fr.phase.Waiting? || fr.phase == Retrying || fr.phase == Nested || fr.phase == Rereading ==>
          HasNext(fr))
    && (fr.phase == Rereading ==> NextKey(fr) in cache.data)
  }

  /** Frame `upper` is the second call that `lower` made for its next key. */
  ghost predicate Stacked(lower: Frame, upper: Frame) {
    lower.phase == Nested && HasNext(lower) && upper.keys == [NextKey(lower)]
  }

  ghost predicate CallOk(cache: CacheState, call: Call) {
    match call
    case Running(frames) =>
      && |frames| > 0
      && (forall i :: 0 <= i < |frames| ==> FrameOk(cache, frames[i]))
      && (forall i :: 0 <= i < |frames| - 1 ==> Stacked(frames[i], frames[i + 1]))
      && Top(call).phase != Nested
    case Returned(keys, values) => |keys| == |values|
    case Failed(why) => why != InvalidState
  }

  ghost predicate CallsOk(s: System) {
    forall c :: c in s.calls ==> CallOk(s.core.cache, s.calls[c])
  }

  lemma {:induction false} CallOkGrows(cache: CacheState, cache': CacheState, call: Call)
    requires CallOk(cache, call)
    requires cache.data.Keys <= cache'.data.Keys
    ensures CallOk(cache', call)
  {
    if call.Running? {
      forall i | 0 <= i < |call.frames| ensures FrameOk(cache', call.frames[i]) {
        assert FrameOk(cache, call.frames[i]);
      }
    }
  }

  lemma {:induction false} SetTopOk(cache: CacheState, call: Call, fr: Frame)
    requires CallOk(cache, call) && call.Running?
    requires FrameOk(cache, fr) && fr.keys == Top(call).keys && fr.phase != Nested
    ensures CallOk(cache, SetTop(call, fr))
  {
    var call' := SetTop(call, fr);
    var n := |call.frames|;
    forall i | 0 <= i < n ensures FrameOk(cache, call'.frames[i]) {
      assert FrameOk(cache, call.frames[i]);
    }
    forall i | 0 <= i < n - 1 ensures Stacked(call'.frames[i], call'.frames[i + 1]) {
      assert Stacked(call.frames[i], call.frames[i + 1]);
    }
  }

  lemma {:induction false} TopOk(cache: CacheState, call: Call)
    requires CallOk(cache, call) && call.Running?
    ensures FrameOk(cache, Top(call))
  {
  }

  /** A second call covers the key its caller waits for, so on return that key is cached. */
  lemma {:induction false} PopOk(cache: CacheState, call: Call)
    requires CallOk(cache, call) && call.Running?
    requires !HasNext(Top(call))
    ensures CallOk(cache, Pop(call))
  {
    TopOk(cache, call);
    var n := |call.frames|;
    if n > 1 {
      var below := Running(call.frames[..n - 1]);
      var fr := call.frames[n - 2];
      assert Stacked(fr, call.frames[n - 1]);
      assert FrameOk(cache, fr);
      assert call.frames[n - 1].keys[0] in cache.data;
      var call' := SetTop(below, fr.(phase := Rereading));
      forall i | 0 <= i < n - 1 ensures FrameOk(cache, call'.frames[i]) {
        assert FrameOk(cache, call.frames[i]);
      }
      forall i | 0 <= i < n - 2 ensures Stacked(call'.frames[i], call'.frames[i + 1]) {
        assert Stacked(call.frames[i], call.frames[i + 1]);
      }
    }
  }

  lemma {:induction false} PushOk(cache: CacheState, call: Call, fr: Frame)
    requires CallOk(cache, call) && call.Running? && HasNext(Top(call))
    requires FrameOk(cache, fr) && fr.keys == [NextKey(Top(call))] && fr.phase != Nested
    ensures CallOk(cache, Running(SetTop(call, Top(call).(phase := Nested)).frames + [fr]))
  {
    TopOk(cache, call);
    var n := |call.frames|;
    var frames := SetTop(call, Top(call).(phase := Nested)).frames + [fr];
    forall i | 0 <= i < n + 1 ensures FrameOk(cache, frames[i]) {
      assert i < n ==> FrameOk(cache, call.frames[i]);
    }
    forall i | 0 <= i < n ensures Stacked(frames[i], frames[i + 1]) {
      assert i < n - 1 ==> Stacked(call.frames[i], call.frames[i + 1]);
    }
  }

  lemma {:induction false} ReadOneOk(cache: CacheState, call: Call)
    requires cache.data.Keys !! cache.pending.Keys
    requires CallOk(cache, call) && call.Running? && HasNext(Top(call))
    ensures CallOk(cache, ReadOne(cache, call))
  {
    var fr := Top(call);
    var k := NextKey(fr);
    TopOk(cache, call);
    match StateOf(cache, k)
    case Exist => SetTopOk(cache, call, Take(fr, cache.data[k]));
    case Pending => SetTopOk(cache, call, fr.(phase := Waiting(cache.pending[k])));
    case _ =>
  }

  lemma {:induction false} WakeUpOk(cache: CacheState, call: Call)
    requires CallOk(cache, call) && call.Running? && HasNext(Top(call))
    ensures CallOk(cache, WakeUp(cache, call))
  {
    var fr := Top(call);
    var k := NextKey(fr);
    TopOk(cache, call);
    if StateOf(cache, k) == Exist {
      SetTopOk(cache, call, Take(fr, Lookup(cache.data, k)));
    } else {
      SetTopOk(cache, call, fr.(phase := Retrying));
    }
  }

  lemma {:induction false} StepCallOk(s: System, step: Step, c: nat)
    requires Owned(s.core) && CallsOk(s) && Enabled(s, step)
    requires c in Do(s, step).calls
    ensures CallOk(Do(s, step).core.cache, Do(s, step).calls[c])
  {
    var s' := Do(s, step);
    StepGrows(s, step);
    if c in s.calls {
      var call := s.calls[c];
      assert CallOk(s.core.cache, call);
      CallOkGrows(s.core.cache, s'.core.cache, call);
      if call.Running? && s'.calls[c] != call {
        OwnStepCallOk(s, step, c);
      }
    }
  }

  lemma {:induction false} OwnStepCallOk(s: System, step: Step, c: nat)
    requires Owned(s.core) && Enabled(s, step)
    requires Active(s, c) && Do(s, step).calls[c] != s.calls[c]
    requires CallOk(s.core.cache, s.calls[c])
    requires CallOk(Do(s, step).core.cache, s.calls[c])
    ensures CallOk(Do(s, step).core.cache, Do(s, step).calls[c])
  {
    var cache' := Do(s, step).core.cache;
    var call := s.calls[c];
    var fr := Top(call);
    TopOk(cache', call);
    match step
    case FetchFinish(f) => SetTopOk(cache', call, fr.(phase := Reading));
    case Read(_) => ReadOneOk(cache', call);
    case Wake(_) => WakeUpOk(cache', call);
    case Retry(_) => PushOk(cache', call, FirstFrame(s.core, [NextKey(fr)]));
    case Return(_) => PopOk(cache', call);
    case Reread(_) => SetTopOk(cache', call, Take(fr, Lookup(cache'.data, NextKey(fr))));
    case _ =>
  }

  ghost predicate Inv(s: System) {
    CoreInv(s.core) && CallsOk(s)
  }

  lemma {:induction false} InvKept(s: System, step: Step)
    requires Inv(s) && Enabled(s, step) && Honest(s, step)
    ensures Inv(Do(s, step))
  {
    CoreInvKept(s, step);
    forall c | c in Do(s, step).calls ensures CallOk(Do(s, step).core.cache, Do(s, step).calls[c]) {
      StepCallOk(s, step, c);
    }
  }

  lemma {:induction false} InitInv(base: map<Key, Raw>)
    ensures Inv(Init(base))
  {
    var c := Init(base).core;
    assert c.topic == [] && c.store.log[0..0] == [];
  }

  lemma {:induction false} StartInv(r: Run)
    requires IsRun(r)
    ensures Inv(r.states[0])
  {
    var base :| r.states[0] == Init(base);
    InitInv(base);
  }

  /** Every state of every run satisfies the invariant. */
  lemma {:induction false} RunInv(r: Run, t: nat)
    requires HonestRun(r) && t < |r.states|
    ensures Inv(r.states[t])
  {
    if t == 0 {
      StartInv(r);
    } else {
      RunInv(r, t - 1);
      assert HonestMove(r, t - 1);
      InvKept(r.states[t - 1], r.steps[t - 1]);
    }
  }

  /**
   * In every state of every run, whatever races with what, a cached value is the store's value at
   * a position not before the last applied update; with all updates applied it is the store's value.
   */
  lemma {:induction false} CacheIsFresh(r: Run, t: nat, k: Key)
    requires HonestRun(r) && t < |r.states| && k in r.states[t].core.cache.data
    ensures var c := r.states[t].core;
      && c.applied <= |c.store.log| && Fresh(c.store, k, c.cache.data[k], c.applied)
      && (c.applied == |c.store.log| ==> c.cache.data[k] == c.store.At(k, |c.store.log|))
  {
    RunInv(r, t);
    var c := r.states[t].core;
    if c.applied == |c.store.log| {
      CaughtUpCacheIsStore(c, k);
    }
  }

  lemma {:induction false} RunGrows(r: Run, t: nat, u: nat)
    requires HonestRun(r) && t <= u < |r.states|
    ensures Grows(r.states[t].core, r.states[u].core)
    decreases u
  {
    if t < u {
      RunGrows(r, t, u - 1);
      RunInv(r, u - 1);
      assert HonestMove(r, u - 1);
      StepGrows(r.states[u - 1], r.steps[u - 1]);
    }
  }

  // ---- Values are read from the cache during the call ----

  ghost predicate FrameHas(keys: seq<Key>, values: seq<Raw>, k: Key, v: Raw) {
    exists j :: 0 <= j < |values| && j < |keys| && keys[j] == k && values[j] == v
  }

  /** The call has `v` as a result for `k`. */
  ghost predicate Recorded(call: Call, k: Key, v: Raw) {
    match call
    case Running(frames) => exists i :: 0 <= i < |frames| && FrameHas(frames[i].keys, frames[i].values, k, v)
    case Returned(keys, values) => FrameHas(keys, values, k, v)
    case Failed(_) => false
  }

  ghost predicate Cached(cache: CacheState, k: Key, v: Raw) {
    k in cache.data && cache.data[k] == v
  }

  lemma {:induction false} SetTopRecords(call: Call, fr: Frame, k: Key, v: Raw)
    requires call.Running? && |call.frames| > 0
    requires Recorded(SetTop(call, fr), k, v)
    ensures Recorded(call, k, v) || FrameHas(fr.keys, fr.values, k, v)
  {
    var call' := SetTop(call, fr);
    var i :| 0 <= i < |call'.frames| && FrameHas(call'.frames[i].keys, call'.frames[i].values, k, v);
    if i < |call.frames| - 1 {
      assert call'.frames[i] == call.frames[i];
    }
  }

  lemma {:induction false} TopRecords(call: Call, k: Key, v: Raw)
    requires call.Running? && |call.frames| > 0
    requires FrameHas(Top(call).keys, Top(call).values, k, v)
    ensures Recorded(call, k, v)
  {
    assert call.frames[|call.frames| - 1] == Top(call);
  }

  lemma {:induction false} TakeRecords(call: Call, cache: CacheState, x: Raw, k: Key, v: Raw)
    requires call.Running? && |call.frames| > 0 && HasNext(Top(call))
    requires Cached(cache, NextKey(Top(call)), x)
    requires Recorded(SetTop(call, Take(Top(call), x)), k, v)
    ensures Recorded(call, k, v) || Cached(cache, k, v)
  {
    var fr := Top(call);
    SetTopRecords(call, Take(fr, x), k, v);
    if FrameHas(fr.keys, fr.values + [x], k, v) {
      var values := fr.values + [x];
      var j :| 0 <= j < |values| && j < |fr.keys| && fr.keys[j] == k && values[j] == v;
      if j < |fr.values| {
        assert fr.values[j] == v;
        TopRecords(call, k, v);
      }
    }
  }

  lemma {:induction false} PhaseRecords(call: Call, p: Phase, k: Key, v: Raw)
    requires call.Running? && |call.frames| > 0
    requires Recorded(SetTop(call, Top(call).(phase := p)), k, v)
    ensures Recorded(call, k, v)
  {
    SetTopRecords(call, Top(call).(phase := p), k, v);
    if FrameHas(Top(call).keys, Top(call).values, k, v) {
      TopRecords(call, k, v);
    }
  }

  lemma {:induction false} PopRecords(call: Call, k: Key, v: Raw)
    requires call.Running? && |call.frames| > 0
    requires Recorded(Pop(call), k, v)
    ensures Recorded(call, k, v)
  {
    var n := |call.frames|;
    if n == 1 {
      TopRecords(call, k, v);
    } else {
      var below := Running(call.frames[..n - 1]);
      PhaseRecords(below, Rereading, k, v);
      var i :| 0 <= i < n - 1 && FrameHas(below.frames[i].keys, below.frames[i].values, k, v);
      assert below.frames[i] == call.frames[i];
    }
  }

  lemma {:induction false} PushRecords(call: Call, fr: Frame, k: Key, v: Raw)
    requires call.Running? && |call.frames| > 0 && fr.values == []
    requires Recorded(Running(SetTop(call, Top(call).(phase := Nested)).frames + [fr]), k, v)
    ensures Recorded(call, k, v)
  {
    var mid := SetTop(call, Top(call).(phase := Nested));
    var frames := mid.frames + [fr];
    var i :| 0 <= i < |frames| && FrameHas(frames[i].keys, frames[i].values, k, v);
    assert frames[i] == mid.frames[i];
    PhaseRecords(call, Nested, k, v);
  }

  /** Each step keeps the results a call has, and adds only what the cache holds at that moment. */
  lemma {:induction false} StepRecords(s: System, step: Step, c: nat, k: Key, v: Raw)
    requires Owned(s.core) && CallsOk(s) && Enabled(s, step)
    requires c in s.calls && Recorded(Do(s, step).calls[c], k, v)
    ensures Recorded(s.calls[c], k, v) || Cached(Do(s, step).core.cache, k, v)
  {
    if Do(s, step).calls[c] != s.calls[c] {
      assert CallOk(s.core.cache, s.calls[c]);
      var call, cache := s.calls[c], s.core.cache;
      var fr := Top(call);
      TopOk(cache, call);
      match step
      case FetchFinish(f) => PhaseRecords(call, Reading, k, v);
      case Read(_) =>
        var key := NextKey(fr);
        if StateOf(cache, key) == Exist {
          TakeRecords(call, cache, cache.data[key], k, v);
        } else {
          PhaseRecords(call, Waiting(cache.pending[key]), k, v);
        }
      case Wake(_) =>
        var key := NextKey(fr);
        if StateOf(cache, key) == Exist {
          TakeRecords(call, cache, Lookup(cache.data, key), k, v);
        } else {
          PhaseRecords(call, Retrying, k, v);
        }
      case Retry(_) => PushRecords(call, FirstFrame(s.core, [NextKey(fr)]), k, v);
      case Return(_) => PopRecords(call, k, v);
      case Reread(_) => TakeRecords(call, cache, Lookup(cache.data, NextKey(fr)), k, v);
      case _ =>
    }
  }

  /** Between states `b` and `t` the cache held `v` for `k`. */
  ghost predicate SeenBetween(r: Run, b: nat, t: nat, k: Key, v: Raw)
    requires t < |r.states|
  {
    exists u :: b < u <= t && Cached(r.states[u].core.cache, k, v)
  }

  /** Step `b` of the run starts call `c` with these keys. */
  ghost predicate Begins(r: Run, b: nat, c: nat, keys: seq<Key>) {
    b < |r.steps| && r.steps[b] == Begin(c, keys)
  }

  /** A result of a call was the cached value of its key at some moment during the call. */
  lemma {:induction false} ResultsAreReads(r: Run, b: nat, t: nat, c: nat, keys: seq<Key>, k: Key, v: Raw)
    requires HonestRun(r) && Begins(r, b, c, keys) && b < t < |r.states|
    requires c in r.states[t].calls && Recorded(r.states[t].calls[c], k, v)
    ensures SeenBetween(r, b, t, k, v)
    decreases t
  {
    assert HonestMove(r, b);
    if t > b + 1 {
      RunInv(r, t - 1);
      assert HonestMove(r, t - 1);
      CallStays(r, b, t - 1, c, keys);
      StepRecords(r.states[t - 1], r.steps[t - 1], c, k, v);
      if Recorded(r.states[t - 1].calls[c], k, v) {
        ResultsAreReads(r, b, t - 1, c, keys, k, v);
      }
    }
  }

  /** The keys a call was made with. */
  predicate Asks(call: Call, keys: seq<Key>) {
    match call
    case Running(frames) => |frames| > 0 && frames[0].keys == keys
    case Returned(ks, _) => ks == keys
    case Failed(_) => true
  }

  lemma {:induction false} CallStays(r: Run, b: nat, t: nat, c: nat, keys: seq<Key>)
    requires IsRun(r) && Begins(r, b, c, keys) && b < t < |r.states|
    ensures c in r.states[t].calls && Asks(r.states[t].calls[c], keys)
    decreases t
  {
    if t > b + 1 {
      CallStays(r, b, t - 1, c, keys);
      assert Moves(r, t - 1);
      StepAsks(r.states[t - 1], r.steps[t - 1], c, keys);
    } else {
      assert Moves(r, b);
    }
  }

  lemma {:induction false} StepAsks(s: System, step: Step, c: nat, keys: seq<Key>)
    requires Enabled(s, step) && c in s.calls && Asks(s.calls[c], keys)
    ensures c in Do(s, step).calls && Asks(Do(s, step).calls[c], keys)
  {
  }

  /**
   * `GetOrSet`: a successful call answers the keys it was asked for, index by index, and
   * each value is at least as fresh as the update that was applied when the call began.
   */
  lemma {:induction false} GetOrSetIsFresh(r: Run, b: nat, t: nat, c: nat, keys: seq<Key>, i: nat)
    requires HonestRun(r) && Begins(r, b, c, keys) && b < t < |r.states|
    requires c in r.states[t].calls && r.states[t].calls[c].Returned? && i < |keys|
    ensures r.states[t].calls[c].keys == keys && |r.states[t].calls[c].values| == |keys|
    ensures SeenBetween(r, b, t, keys[i], r.states[t].calls[c].values[i])
    ensures Fresh(r.states[t].core.store, keys[i], r.states[t].calls[c].values[i], r.states[b].core.applied)
  {
    CallStays(r, b, t, c, keys);
    RunInv(r, t);
    assert CallOk(r.states[t].core.cache, r.states[t].calls[c]);
    var v := r.states[t].calls[c].values[i];
    assert Recorded(r.states[t].calls[c], keys[i], v);
    ResultsAreReads(r, b, t, c, keys, keys[i], v);
    var u :| b < u <= t && Cached(r.states[u].core.cache, keys[i], v);
    RunInv(r, u);
    RunGrows(r, b, u);
    RunGrows(r, u, t);
    FreshLater(r.states[u].core.store, r.states[t].core.store, keys[i], v,
               r.states[u].core.applied, r.states[b].core.applied);
  }

  lemma {:induction false} PastStays(s: Store, s': Store, k: Key, p: nat)
    requires s.base == s'.base && s.log <= s'.log && p <= |s.log|
    ensures s.At(k, p) == s'.At(k, p)
  {
    if p > 0 {
      PastStays(s, s', k, p - 1);
    }
  }

  lemma {:induction false} FreshLater(s: Store, s': Store, k: Key, v: Raw, from: nat, from': nat)
    requires s.base == s'.base && s.log <= s'.log && from' <= from
    requires Fresh(s, k, v, from)
    ensures Fresh(s', k, v, from')
  {
    var q: nat :| from <= q <= |s.log| && s.At(k, q) == v;
    PastStays(s, s', k, q);
  }

  // ---- Null is never cached ----

  lemma {:induction false} StepNoNull(s: System, step: Step)
    requires Enabled(s, step) && NoNull(s.core.cache)
    ensures NoNull(Do(s, step).core.cache)
  {
    var cache := s.core.cache;
    match step
    case FeedReceive(n) =>
      var batch := Merge(s.core.store.log[s.core.applied..s.core.applied + n]);
      AssignNoNull(cache, Restrict(batch, cache.data.Keys + cache.pending.Keys));
    case FetchFinish(f) =>
      var flight := s.core.flights[f];
      if flight.answer.Answered? {
        AssignNoNull(cache, Installed(cache, flight.keys, flight.answer.response));
      }
    case Begin(_, keys) => PendingKeepsData(cache, keys);
    case Retry(c) => PendingKeepsData(cache, [NextKey(Top(s.calls[c]))]);
    case _ =>
  }

  lemma {:induction false} PendingKeepsData(c: CacheState, keys: seq<Key>)
    ensures NotExistToPending(c, keys).0.data == c.data
  {
    if keys != [] {
      PendingKeepsData(c, keys[..|keys| - 1]);
    }
  }

  /** In every run, whatever the datastore answers and the feed delivers, no cached value is null. */
  lemma {:induction false} NullIsNeverCached(r: Run, t: nat)
    requires IsRun(r) && t < |r.states|
    ensures NoNull(r.states[t].core.cache)
  {
    if t > 0 {
      NullIsNeverCached(r, t - 1);
      assert Moves(r, t - 1);
      StepNoNull(r.states[t - 1], r.steps[t - 1]);
    }
  }

  /** And no result of a call is null. */
  lemma {:induction false} NullIsNeverReturned(r: Run, b: nat, t: nat, c: nat, keys: seq<Key>, k: Key, v: Raw)
    requires HonestRun(r) && Begins(r, b, c, keys) && b < t < |r.states|
    requires c in r.states[t].calls && Recorded(r.states[t].calls[c], k, v)
    ensures v != Doc(Null)
  {
    ResultsAreReads(r, b, t, c, keys, k, v);
    var u :| b < u <= t && Cached(r.states[u].core.cache, k, v);
    NullIsNeverCached(r, u);
  }
}
