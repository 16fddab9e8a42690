/** Slow fetches race with pushed updates and never install stale data. */
module Freshness {
  import opened Values
  import opened StoreLog
  import opened CacheSpec
  import opened Flights

  /** What a fetch is going to install is still current for each key that waits for it. */
  ghost predicate FlightFresh(c: Core, fl: Flight) {
    fl.answer.Answered? ==>
      && fl.answer.response.Keys <= Elements(fl.keys)
      && forall k :: k in fl.keys && k in c.cache.pending ==>
           Fresh(c.store, k, Normalize(Lookup(fl.answer.response, k)), c.applied)
  }

  /** Each cached value is the store's value at a position not before the last applied update. */
  ghost predicate CacheFresh(c: Core) {
    forall k :: k in c.cache.data ==> Fresh(c.store, k, c.cache.data[k], c.applied)
  }

  ghost predicate AllFresh(c: Core) {
    && c.applied <= |c.store.log|
    && CacheFresh(c)
    && forall f :: f in c.flights ==> FlightFresh(c, c.flights[f])
  }

  lemma {:induction false} WriteFresh(c: Core, m: Message)
    requires AllFresh(c)
    ensures AllFresh(Write(c, m))
  {
    var c' := Write(c, m);
    forall k | k in c'.cache.data ensures Fresh(c'.store, k, c'.cache.data[k], c'.applied) {
      WriteKeepsFresh(c.store, m, k, c.cache.data[k], c.applied);
    }
    forall f | f in c'.flights ensures FlightFresh(c', c'.flights[f]) {
      var fl := c.flights[f];
      assert FlightFresh(c, fl);
      if fl.answer.Answered? {
        forall k | k in fl.keys && k in c.cache.pending
          ensures Fresh(c'.store, k, Normalize(Lookup(fl.answer.response, k)), c'.applied)
        {
          WriteKeepsFresh(c.store, m, k, Normalize(Lookup(fl.answer.response, k)), c.applied);
        }
      }
    }
  }

  lemma {:induction false} ReceiveCacheFresh(c: Core, n: nat)
    requires AllFresh(c) && CanReceive(c, n)
    ensures CacheFresh(Receive(c, n))
  {
    var c' := Receive(c, n);
    var batch := Merge(c.store.log[c.applied..c'.applied]);
    forall k | k in c'.cache.data ensures Fresh(c'.store, k, c'.cache.data[k], c'.applied) {
      if k in batch {
        assert c'.cache.data[k] == Normalize(batch[k]);
        TouchedGetsLastValue(c.store, k, c.applied, c'.applied);
      } else {
        assert c'.cache.data[k] == c.cache.data[k];
        FreshOverSegment(c.store, k, c.cache.data[k], c.applied, c'.applied);
      }
    }
  }

  lemma {:induction false} ReceiveFlightFresh(c: Core, n: nat, fl: Flight)
    requires CanReceive(c, n) && FlightFresh(c, fl)
    ensures FlightFresh(Receive(c, n), fl)
  {
    var c' := Receive(c, n);
    if fl.answer.Answered? {
      forall k | k in fl.keys && k in c'.cache.pending
        ensures Fresh(c'.store, k, Normalize(Lookup(fl.answer.response, k)), c'.applied)
      {
        FreshOverSegment(c.store, k, Normalize(Lookup(fl.answer.response, k)), c.applied, c'.applied);
      }
    }
  }

  lemma {:induction false} ReceiveFresh(c: Core, n: nat)
    requires AllFresh(c) && CanReceive(c, n)
    ensures AllFresh(Receive(c, n))
  {
    ReceiveCacheFresh(c, n);
    forall f | f in c.flights ensures FlightFresh(Receive(c, n), c.flights[f]) {
      ReceiveFlightFresh(c, n, c.flights[f]);
    }
  }

  lemma {:induction false} LaunchFresh(c: Core, owner: nat, keys: seq<Key>)
    requires Owned(c) && AllFresh(c)
    ensures AllFresh(Launch(c, owner, keys))
  {
    var c' := Launch(c, owner, keys);
    LaunchCache(c, owner, keys);
    forall f | f in c'.flights ensures FlightFresh(c', c'.flights[f]) {
      if f in c.flights {
        assert FlightFresh(c, c.flights[f]);
        forall k | k in c.flights[f].keys && k in c'.cache.pending ensures k in c.cache.pending {
          assert Held(c, k);
        }
      }
    }
  }

  lemma {:induction false} ReplyFresh(c: Core, f: nat, a: Answer)
    requires AllFresh(c) && CanReply(c, f, a) && Asked(c, f, a)
    ensures AllFresh(Reply(c, f, a))
  {
    var c' := Reply(c, f, a);
    forall g | g in c'.flights ensures FlightFresh(c', c'.flights[g]) {
      assert FlightFresh(c, c.flights[g]);
    }
  }

  lemma {:induction false} FinishFresh(c: Core, f: nat)
    requires AllFresh(c) && CanFinish(c, f)
    ensures AllFresh(Finish(c, f))
  {
    var c' := Finish(c, f);
    var fl := c.flights[f];
    assert FlightFresh(c, fl);
    assert c'.cache.pending.Keys <= c.cache.pending.Keys;
    forall k | k in c'.cache.data ensures Fresh(c'.store, k, c'.cache.data[k], c'.applied) {
      if fl.answer.Answered? && k in Installed(c.cache, fl.keys, fl.answer.response) {
        assert k in fl.keys;
      } else {
        assert c'.cache.data[k] == c.cache.data[k];
      }
    }
    forall g | g in c'.flights ensures FlightFresh(c', c'.flights[g]) {
      assert FlightFresh(c, c.flights[g]);
    }
  }

  /** With every update applied, the cache agrees with the store on every key it holds. */
  lemma {:induction false} CaughtUpCacheIsStore(c: Core, k: Key)
    requires AllFresh(c) && c.applied == |c.store.log| && k in c.cache.data
    ensures c.cache.data[k] == c.store.At(k, |c.store.log|)
  {
    assert Fresh(c.store, k, c.cache.data[k], c.applied);
  }

  // ---- The topic follows the log ----

  /** The publication reports the keys of the messages between the position before it and its own. */
  ghost predicate Reported(topic: seq<Publication>, log: seq<Message>, t: nat) {
    && t < |topic| && Position(topic, t) <= Position(topic, t + 1) <= |log|
    && topic[t].keys == Merge(log[Position(topic, t)..Position(topic, t + 1)]).Keys
  }

  /** Each publication reports the keys that the messages up to its position changed. */
  ghost predicate TopicFollows(c: Core) {
    && c.applied <= |c.store.log|
    && (forall t, u :: 0 <= t <= u <= |c.topic| ==> Position(c.topic, t) <= Position(c.topic, u) <= c.applied)
    && (forall t :: 0 <= t < |c.topic| ==> Reported(c.topic, c.store.log, t))
    && match c.unpublished
       case None => Position(c.topic, |c.topic|) == c.applied
       case Some(keys) => keys == Merge(c.store.log[Position(c.topic, |c.topic|)..c.applied]).Keys
  }

  lemma {:induction false} WriteTopic(c: Core, m: Message)
    requires TopicFollows(c)
    ensures TopicFollows(Write(c, m))
  {
    var log := c.store.log;
    assert forall p, q :: 0 <= p <= q <= |log| ==> (log + [m])[p..q] == log[p..q];
    forall t | 0 <= t < |c.topic| ensures Reported(c.topic, log + [m], t) {
      assert Reported(c.topic, log, t);
    }
  }

  lemma {:induction false} ReceiveTopic(c: Core, n: nat)
    requires TopicFollows(c) && CanReceive(c, n)
    ensures TopicFollows(Receive(c, n))
  {
  }

  lemma {:induction false} PublishTopic(c: Core)
    requires TopicFollows(c) && c.unpublished.Some?
    ensures TopicFollows(Publish(c))
  {
    var c' := Publish(c);
    var n := |c.topic|;
    assert forall t :: 0 <= t <= n ==> Position(c'.topic, t) == Position(c.topic, t);
    assert Position(c'.topic, n + 1) == c.applied;
    forall t | 0 <= t < n + 1 ensures Reported(c'.topic, c.store.log, t) {
      assert t < n ==> Reported(c.topic, c.store.log, t);
    }
  }

  /** The keys published after topic id `t`, up to `u`. */
  function Changed(topic: seq<Publication>, t: nat, u: nat): set<Key>
    requires t <= u <= |topic|
  {
    if t == u then {} else Changed(topic, t, u - 1) + topic[u - 1].keys
  }

  /** A key that the topic does not report kept its store value. */
  lemma {:induction false} UnreportedIsUntouched(c: Core, t: nat, u: nat)
    requires TopicFollows(c) && t <= u <= |c.topic|
    ensures Changed(c.topic, t, u) == Merge(c.store.log[Position(c.topic, t)..Position(c.topic, u)]).Keys
  {
    if t < u {
      UnreportedIsUntouched(c, t, u - 1);
      assert Reported(c.topic, c.store.log, u - 1);
      MergeSegments(c.store.log, Position(c.topic, t), Position(c.topic, u - 1), Position(c.topic, u));
    }
  }
}
