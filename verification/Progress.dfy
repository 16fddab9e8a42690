/** No call is ever stuck: it can go on, or a fetch in flight will wake it. */
module Progress {
  import opened Values
  import opened CacheSpec
  import opened Flights
  import opened Calls
  import opened CallRuns
  import opened SingleFlight

  /** The call waits for its own fetch while that is in flight, or for a channel that was made. */
  ghost predicate Sound(c: Core, id: nat, call: Call) {
    call.Running? && |call.frames| > 0 ==>
      match Top(call).phase
      case Fetching(f) => f in c.flights && c.flights[f].owner == id
      case Waiting(ch) => ch < c.cache.made
      case _ => true
  }

  ghost predicate AllSound(s: System) {
    CallsOk(s) && forall c :: c in s.calls ==> Sound(s.core, c, s.calls[c])
  }

  /** A call that did not move itself still waits for the same thing. */
  lemma {:induction false} OthersSound(s: System, step: Step, c: nat)
    requires Owned(s.core) && Enabled(s, step)
    requires c in s.calls && Sound(s.core, c, s.calls[c]) && Do(s, step).calls[c] == s.calls[c]
    ensures Sound(Do(s, step).core, c, s.calls[c])
  {
    StepChannels(s, step);
    if Active(s, c) && Top(s.calls[c]).phase.Fetching? {
      var f := Top(s.calls[c]).phase.flight;
      assert f < s.core.nextFlight;
    }
  }

  lemma {:induction false} LaunchSound(c: Core, owner: nat, keys: seq<Key>, frames: seq<Frame>)
    ensures Sound(Launch(c, owner, keys), owner, Running(frames + [FirstFrame(c, keys)]))
  {
  }

  lemma {:induction false} OwnStepSound(s: System, step: Step, c: nat)
    requires Owned(s.core) && Enabled(s, step) && Active(s, c)
    requires Sound(s.core, c, s.calls[c]) && Do(s, step).calls[c] != s.calls[c]
    ensures Sound(Do(s, step).core, c, Do(s, step).calls[c])
  {
    if step.Retry? {
      var waiting := SetTop(s.calls[c], Top(s.calls[c]).(phase := Nested));
      LaunchSound(s.core, c, [NextKey(Top(s.calls[c]))], waiting.frames);
    }
  }

  lemma {:induction false} SoundKept(s: System, step: Step)
    requires Owned(s.core) && AllSound(s) && Enabled(s, step)
    ensures AllSound(Do(s, step))
  {
    var s' := Do(s, step);
    forall c | c in s'.calls ensures CallOk(s'.core.cache, s'.calls[c]) && Sound(s'.core, c, s'.calls[c]) {
      StepCallOk(s, step, c);
      if c !in s.calls {
        LaunchSound(s.core, c, step.keys, []);
        assert [] + [FirstFrame(s.core, step.keys)] == [FirstFrame(s.core, step.keys)];
      } else if s'.calls[c] == s.calls[c] {
        OthersSound(s, step, c);
      } else {
        OwnStepSound(s, step, c);
      }
    }
  }

  lemma {:induction false} RunSound(r: Run, t: nat)
    requires IsRun(r) && t < |r.states|
    ensures AllSound(r.states[t])
  {
    if t > 0 {
      RunSound(r, t - 1);
      RunOwned(r, t - 1);
      assert Moves(r, t - 1);
      SoundKept(r.states[t - 1], r.steps[t - 1]);
    }
  }

  /** A step of the call itself, other than giving up. */
  predicate OwnStep(step: Step, c: nat) {
    (step.Read? || step.Wake? || step.Retry? || step.Return? || step.Reread?) && step.call == c
  }

  ghost predicate CanGoOn(s: System, c: nat) {
    exists step :: OwnStep(step, c) && Enabled(s, step)
  }

  /** The call waits for the fetch `f`, its own or one that holds the key it waits for. */
  ghost predicate BlockedBy(s: System, c: nat, f: nat)
    requires Active(s, c)
  {
    f in s.core.flights &&
    match Top(s.calls[c]).phase
    case Fetching(g) => f == g
    case Waiting(ch) =>
      exists k :: k in s.core.flights[f].keys && k in s.core.cache.pending && s.core.cache.pending[k] == ch
    case _ => false
  }

  /**
   * In every run, whatever fails, a running call can take its next step or is blocked by a
   * fetch that is still in flight. No wake-up is lost and no set of calls waits for itself.
   */
  lemma {:induction false} NoCallIsStuck(r: Run, t: nat, c: nat)
    requires IsRun(r) && t < |r.states| && Active(r.states[t], c)
    ensures CanGoOn(r.states[t], c) || exists f :: BlockedBy(r.states[t], c, f)
  {
    RunOwned(r, t);
    RunSound(r, t);
    var s := r.states[t];
    var call := s.calls[c];
    assert CallOk(s.core.cache, call);
    TopOk(s.core.cache, call);
    match Top(call).phase
    case Fetching(f) => assert BlockedBy(s, c, f);
    case Reading =>
      assert OwnStep(Read(c), c) && OwnStep(Return(c), c);
      assert Enabled(s, Read(c)) || Enabled(s, Return(c));
    case Waiting(ch) => WaiterGoesOn(s, c);
    case Retrying => assert OwnStep(Retry(c), c) && Enabled(s, Retry(c));
    case Rereading => assert OwnStep(Reread(c), c) && Enabled(s, Reread(c));
    case _ =>
  }

  lemma {:induction false} WaiterGoesOn(s: System, c: nat)
    requires Owned(s.core) && Active(s, c) && Top(s.calls[c]).phase.Waiting?
    requires Sound(s.core, c, s.calls[c]) && HasNext(Top(s.calls[c]))
    ensures CanGoOn(s, c) || exists f :: BlockedBy(s, c, f)
  {
    var ch := Top(s.calls[c]).phase.ch;
    if ch in s.core.cache.closed {
      assert OwnStep(Wake(c), c) && Enabled(s, Wake(c));
    } else {
      assert ch in s.core.cache.pending.Values;
      var k :| k in s.core.cache.pending && s.core.cache.pending[k] == ch;
      assert Claimed(s.core, k);
      var f :| f in s.core.flights && k in s.core.flights[f].keys;
      assert BlockedBy(s, c, f);
    }
  }

  /** When the fetch ends, well or badly, the blocked call goes on or has failed. */
  lemma {:induction false} FinishUnblocks(r: Run, t: nat, c: nat, f: nat)
    requires IsRun(r) && t < |r.states| && Active(r.states[t], c) && BlockedBy(r.states[t], c, f)
    requires Enabled(r.states[t], FetchFinish(f))
    ensures Unblocked(Do(r.states[t], FetchFinish(f)), c)
  {
    RunOwned(r, t);
    RunSound(r, t);
    var s := r.states[t];
    assert CallOk(s.core.cache, s.calls[c]);
    TopOk(s.core.cache, s.calls[c]);
    if Top(s.calls[c]).phase.Fetching? {
      assert Sound(s.core, c, s.calls[c]);
      OwnerUnblocked(s, c, f);
    } else {
      WaiterUnblocked(s, c, f);
    }
  }

  ghost predicate Unblocked(s: System, c: nat) {
    c in s.calls && (s.calls[c] == Failed(FetchFailed) || CanGoOn(s, c))
  }

  lemma {:induction false} OwnerUnblocked(s: System, c: nat, f: nat)
    requires Active(s, c) && Top(s.calls[c]).phase == Fetching(f) && Sound(s.core, c, s.calls[c])
    requires Enabled(s, FetchFinish(f))
    ensures Unblocked(Do(s, FetchFinish(f)), c)
  {
    var s' := Do(s, FetchFinish(f));
    if s.core.flights[f].answer.Answered? {
      assert OwnStep(Read(c), c) && OwnStep(Return(c), c);
      assert Enabled(s', Read(c)) || Enabled(s', Return(c));
    }
  }

  lemma {:induction false} WaiterUnblocked(s: System, c: nat, f: nat)
    requires Owned(s.core) && Active(s, c) && Top(s.calls[c]).phase.Waiting? && HasNext(Top(s.calls[c]))
    requires BlockedBy(s, c, f) && Enabled(s, FetchFinish(f))
    ensures Unblocked(Do(s, FetchFinish(f)), c)
  {
    var ch := Top(s.calls[c]).phase.ch;
    var k :| k in s.core.flights[f].keys && k in s.core.cache.pending && s.core.cache.pending[k] == ch;
    FinishCloses(s, f, k);
    var s' := Do(s, FetchFinish(f));
    assert s'.calls[c] == s.calls[c];
    assert OwnStep(Wake(c), c) && Enabled(s', Wake(c));
  }

  lemma {:induction false} FinishCloses(s: System, f: nat, k: Key)
    requires Owned(s.core) && Enabled(s, FetchFinish(f))
    requires k in s.core.flights[f].keys && k in s.core.cache.pending
    ensures s.core.cache.pending[k] in Finish(s.core, f).cache.closed
  {
    var c, c' := s.core, Finish(s.core, f);
    FinishCache(c, f);
    StepChannels(s, FetchFinish(f));
    assert k in Elements(c.flights[f].keys);
    ClosedWhenLeaving(c.cache, c'.cache, k);
  }
}
