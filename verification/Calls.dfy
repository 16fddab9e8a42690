/**
 * Any number of concurrent `GetOrSet` calls over the shared cache. A call is a stack of
 * frames, since a waiter whose key was dropped calls `GetOrSet` again.
 */
module Calls {
  import opened Values
  import opened StoreLog
  import opened CacheSpec
  import opened Flights
  import opened Freshness

  datatype Phase =
    | Fetching(flight: nat)   // waits for its own background fetch
    | Reading                 // in the loop that builds the values
    | Waiting(ch: Chan)       // waits for a fetch of another call
    | Retrying                // was woken, but the key is not in the cache
    | Nested                  // waits for its own second call
    | Rereading               // the second call succeeded

  /** `values` are the results so far; `|values|` is the loop index. */
  datatype Frame = Frame(keys: seq<Key>, values: seq<Raw>, phase: Phase)

  datatype Failure = FetchFailed | NotInCache | InvalidState | Cancelled

  datatype Call =
    | Running(frames: seq<Frame>)
    | Returned(keys: seq<Key>, values: seq<Raw>)
    | Failed(why: Failure)

  datatype System = System(core: Core, calls: map<nat, Call>)

  datatype Step =
    | StoreWrite(message: Message)
    | FeedReceive(count: nat)
    | FeedPublish
    | FetchReply(flight: nat, answer: Answer)
    | FetchFinish(flight: nat)
    | Begin(call: nat, keys: seq<Key>)
    | Read(call: nat)
    | Wake(call: nat)
    | Retry(call: nat)
    | Return(call: nat)
    | Reread(call: nat)
    | Cancel(call: nat)

  function Init(base: map<Key, Raw>): System {
    System(InitCore(base), map[])
  }

  predicate Active(s: System, c: nat) {
    c in s.calls && s.calls[c].Running? && |s.calls[c].frames| > 0
  }

  function Top(call: Call): Frame
    requires call.Running? && |call.frames| > 0
  {
    call.frames[|call.frames| - 1]
  }

  function SetTop(call: Call, frame: Frame): Call
    requires call.Running? && |call.frames| > 0
  {
    Running(call.frames[..|call.frames| - 1] + [frame])
  }

  predicate HasNext(fr: Frame) {
    |fr.values| < |fr.keys|
  }

  function NextKey(fr: Frame): Key
    requires HasNext(fr)
  {
    fr.keys[|fr.values|]
  }

  function Take(fr: Frame, v: Raw): Frame {
    fr.(values := fr.values + [v], phase := Reading)
  }

  /** The frame that a (possibly repeated) call starts with. */
  function FirstFrame(c: Core, keys: seq<Key>): Frame {
    Frame(keys, [], if Missing(c, keys) == [] then Reading else Fetching(c.nextFlight))
  }

  /** The background fetch reports to its call, unless that call gave up. */
  function Notify(s: System, f: nat): map<nat, Call>
    requires f in s.core.flights
  {
    var c := s.core.flights[f].owner;
    if !Active(s, c) || Top(s.calls[c]).phase != Fetching(f) then s.calls
    else if s.core.flights[f].answer.Answered? then
      s.calls[c := SetTop(s.calls[c], Top(s.calls[c]).(phase := Reading))]
    else s.calls[c := Failed(FetchFailed)]
  }

  /** One turn of the loop that builds the values. */
  function ReadOne(cache: CacheState, call: Call): Call
    requires call.Running? && |call.frames| > 0 && HasNext(Top(call))
  {
    var k := NextKey(Top(call));
    match StateOf(cache, k)
    case Exist => SetTop(call, Take(Top(call), cache.data[k]))
    case Pending => SetTop(call, Top(call).(phase := Waiting(cache.pending[k])))
    case Invalid => Failed(InvalidState)
    case NotExist => Failed(NotInCache)
  }

  function WakeUp(cache: CacheState, call: Call): Call
    requires call.Running? && |call.frames| > 0 && HasNext(Top(call))
  {
    var k := NextKey(Top(call));
    if StateOf(cache, k) == Exist then SetTop(call, Take(Top(call), Lookup(cache.data, k)))
    else SetTop(call, Top(call).(phase := Retrying))
  }

  function Pop(call: Call): Call
    requires call.Running? && |call.frames| > 0
  {
    if |call.frames| == 1 then Returned(Top(call).keys, Top(call).values)
    else
      var below := call.frames[..|call.frames| - 1];
      SetTop(Running(below), Top(Running(below)).(phase := Rereading))
  }

  ghost predicate Enabled(s: System, step: Step) {
    match step
    case StoreWrite(m) => true
    case FeedReceive(n) => CanReceive(s.core, n)
    case FeedPublish => s.core.unpublished.Some?
    case FetchReply(f, a) => CanReply(s.core, f, a)
    case FetchFinish(f) => CanFinish(s.core, f)
    case Begin(c, keys) => c !in s.calls
    case Read(c) => Active(s, c) && Top(s.calls[c]).phase == Reading && HasNext(Top(s.calls[c]))
    case Wake(c) => Active(s, c) && Top(s.calls[c]).phase.Waiting?
                    && Top(s.calls[c]).phase.ch in s.core.cache.closed && HasNext(Top(s.calls[c]))
    case Retry(c) => Active(s, c) && Top(s.calls[c]).phase == Retrying && HasNext(Top(s.calls[c]))
    case Return(c) => Active(s, c) && Top(s.calls[c]).phase == Reading && !HasNext(Top(s.calls[c]))
    case Reread(c) => Active(s, c) && Top(s.calls[c]).phase == Rereading && HasNext(Top(s.calls[c]))
    case Cancel(c) => Active(s, c) && (Top(s.calls[c]).phase.Fetching? || Top(s.calls[c]).phase.Waiting?)
  }

  ghost function Do(s: System, step: Step): System
    requires Enabled(s, step)
  {
    match step
    case StoreWrite(m) => s.(core := Write(s.core, m))
    case FeedReceive(n) => s.(core := Receive(s.core, n))
    case FeedPublish => s.(core := Publish(s.core))
    case FetchReply(f, a) => s.(core := Flights.Reply(s.core, f, a))
    case FetchFinish(f) => System(Finish(s.core, f), Notify(s, f))
    case Begin(c, keys) =>
      System(Launch(s.core, c, keys), s.calls[c := Running([FirstFrame(s.core, keys)])])
    case Read(c) => s.(calls := s.calls[c := ReadOne(s.core.cache, s.calls[c])])
    case Wake(c) => s.(calls := s.calls[c := WakeUp(s.core.cache, s.calls[c])])
    case Retry(c) =>
      var again := [NextKey(Top(s.calls[c]))];
      var waiting := SetTop(s.calls[c], Top(s.calls[c]).(phase := Nested));
      System(Launch(s.core, c, again),
             s.calls[c := Running(waiting.frames + [FirstFrame(s.core, again)])])
    case Return(c) => s.(calls := s.calls[c := Pop(s.calls[c])])
    case Reread(c) =>
      var fr := Top(s.calls[c]);
      s.(calls := s.calls[c := SetTop(s.calls[c], Take(fr, Lookup(s.core.cache.data, NextKey(fr))))])
    case Cancel(c) => s.(calls := s.calls[c := Failed(Cancelled)])
  }

  /** Steps of a datastore that answers only what it was asked for. */
  ghost predicate Honest(s: System, step: Step)
    requires Enabled(s, step)
  {
    step.FetchReply? ==> Asked(s.core, step.flight, step.answer)
  }

  // ---- Invariants of the shared part ----

  ghost predicate CoreInv(c: Core) {
    Owned(c) && AllFresh(c) && TopicFollows(c)
  }

  lemma {:induction false} CoreInvKept(s: System, step: Step)
    requires CoreInv(s.core) && Enabled(s, step) && Honest(s, step)
    ensures CoreInv(Do(s, step).core)
  {
    match step
    case StoreWrite(m) => WriteFresh(s.core, m); WriteTopic(s.core, m); WriteOwned(s.core, m);
    case FeedReceive(n) => ReceiveOwned(s.core, n); ReceiveFresh(s.core, n); ReceiveTopic(s.core, n);
    case FeedPublish => PublishOwned(s.core); PublishFresh(s.core); PublishTopic(s.core);
    case FetchReply(f, a) =>
      ReplyOwned(s.core, f, a);
      ReplyFresh(s.core, f, a);
      SameLog(s.core, Flights.Reply(s.core, f, a));
    case FetchFinish(f) => FinishOwned(s.core, f); FinishFresh(s.core, f); SameLog(s.core, Finish(s.core, f));
    case Begin(c, keys) => LaunchKeeps(s.core, c, keys);
    case Retry(c) => LaunchKeeps(s.core, c, [NextKey(Top(s.calls[c]))]);
    case _ =>
  }

  lemma {:induction false} WriteOwned(c: Core, m: Message)
    requires Owned(c)
    ensures Owned(Write(c, m))
  {
    var c' := Write(c, m);
    forall f, k | f in c'.flights && k in c'.flights[f].keys ensures Held(c', k) {
      assert Held(c, k);
    }
    forall k | k in c'.cache.pending ensures Claimed(c', k) {
      assert Claimed(c, k);
    }
  }

  lemma {:induction false} PublishOwned(c: Core)
    requires Owned(c) && c.unpublished.Some?
    ensures Owned(Publish(c))
  {
    var c' := Publish(c);
    forall f, k | f in c'.flights && k in c'.flights[f].keys ensures Held(c', k) {
      assert Held(c, k);
    }
    forall k | k in c'.cache.pending ensures Claimed(c', k) {
      assert Claimed(c, k);
    }
  }

  lemma {:induction false} PublishFresh(c: Core)
    requires AllFresh(c) && c.unpublished.Some?
    ensures AllFresh(Publish(c))
  {
    var c' := Publish(c);
    forall f | f in c'.flights ensures FlightFresh(c', c'.flights[f]) {
      assert FlightFresh(c, c.flights[f]);
    }
  }

  lemma {:induction false} SameLog(c: Core, c': Core)
    requires TopicFollows(c)
    requires c'.store == c.store && c'.applied == c.applied && c'.topic == c.topic && c'.unpublished == c.unpublished
    ensures TopicFollows(c')
  {
  }

  lemma {:induction false} LaunchKeeps(c: Core, owner: nat, keys: seq<Key>)
    requires CoreInv(c)
    ensures CoreInv(Launch(c, owner, keys))
  {
    LaunchOwned(c, owner, keys);
    LaunchFresh(c, owner, keys);
    SameLog(c, Launch(c, owner, keys));
  }

  /** Cached keys are never evicted, channels stay closed, positions and publications only grow. */
  ghost predicate Grows(c: Core, c': Core) {
    && c.cache.data.Keys <= c'.cache.data.Keys
    && c.cache.closed <= c'.cache.closed
    && c.applied <= c'.applied
    && c.store.base == c'.store.base && c.store.log <= c'.store.log
    && c.topic <= c'.topic
  }

  lemma {:induction false} StepGrows(s: System, step: Step)
    requires Owned(s.core) && Enabled(s, step)
    ensures Grows(s.core, Do(s, step).core)
  {
    match step
    case Begin(c, keys) => LaunchCache(s.core, c, keys); NotExistToPendingMoves(s.core.cache, keys);
    case Retry(c) =>
      var again := [NextKey(Top(s.calls[c]))];
      LaunchCache(s.core, c, again);
      NotExistToPendingMoves(s.core.cache, again);
    case FetchFinish(f) => FinishCache(s.core, f);
    case _ =>
  }
}
