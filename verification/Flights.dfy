/**
 * The shared part of the service: the store and its log, the cache, the fetches in
 * flight, and the topic. Each function is one atomic step of it.
 */
module Flights {
  import opened Values
  import opened StoreLog
  import opened CacheSpec

  /** What a fetch has got from the datastore so far. */
  datatype Answer = Outstanding | Refused | Answered(response: map<Key, Raw>)

  /** A background `fetchMissing` of a call. */
  datatype Flight = Flight(owner: nat, keys: seq<Key>, answer: Answer)

  /** One publish of the topic: the changed keys, and the log position it brings readers to. */
  datatype Publication = Publication(keys: set<Key>, upTo: nat)

  datatype Core = Core(
    store: Store,
    cache: CacheState,
    applied: nat,
    unpublished: Option<set<Key>>,
    topic: seq<Publication>,
    flights: map<nat, Flight>,
    nextFlight: nat,
    served: seq<Key>)

  function InitCore(base: map<Key, Raw>): Core {
    Core(Store(base, []), EMPTY, 0, None, [], map[], 0, [])
  }

  /** The log position that topic id `t` stands for. */
  function Position(topic: seq<Publication>, t: nat): nat
    requires t <= |topic|
  {
    if t == 0 then 0 else topic[t - 1].upTo
  }

  // ---- Steps ----

  function Write(c: Core, m: Message): Core {
    c.(store := c.store.Write(m))
  }

  predicate CanReceive(c: Core, n: nat) {
    c.unpublished == None && c.applied + n <= |c.store.log|
  }

  /** `receiveKeyChanges`, first half: the merged batch goes into the cache. */
  function Receive(c: Core, n: nat): Core
    requires CanReceive(c, n)
  {
    var batch := Merge(c.store.log[c.applied..c.applied + n]);
    c.(cache := SetIfExist(c.cache, batch), applied := c.applied + n, unpublished := Some(batch.Keys))
  }

  /** `receiveKeyChanges`, second half: the listener publishes the changed keys. */
  function Publish(c: Core): Core
    requires c.unpublished.Some?
  {
    c.(topic := c.topic + [Publication(c.unpublished.value, c.applied)], unpublished := None)
  }

  function Missing(c: Core, keys: seq<Key>): seq<Key> {
    NotExistToPending(c.cache, keys).1
  }

  /** The start of `GetOrSet`: missing keys become pending and are fetched in the background. */
  function Launch(c: Core, owner: nat, keys: seq<Key>): Core {
    var (cache', missing) := NotExistToPending(c.cache, keys);
    if missing == [] then c.(cache := cache')
    else
      c.(cache := cache',
         flights := c.flights[c.nextFlight := Flight(owner, missing, Outstanding)],
         nextFlight := c.nextFlight + 1)
  }

  /** The datastore answers with its current values; keys without a value are left out. */
  ghost predicate Truthful(c: Core, f: nat, a: Answer)
    requires f in c.flights
  {
    a.Answered? ==>
      && (forall k :: k in a.response ==> Normalize(a.response[k]) == c.store.At(k, |c.store.log|))
      && (forall k :: k in c.flights[f].keys && k !in a.response ==> c.store.At(k, |c.store.log|) == Nil)
  }

  /** The datastore answers only keys that it was asked for. */
  ghost predicate Asked(c: Core, f: nat, a: Answer)
    requires f in c.flights
  {
    a.Answered? ==> a.response.Keys <= Elements(c.flights[f].keys)
  }

  ghost predicate CanReply(c: Core, f: nat, a: Answer) {
    f in c.flights && c.flights[f].answer.Outstanding? && !a.Outstanding? && Truthful(c, f, a)
  }

  function Reply(c: Core, f: nat, a: Answer): Core
    requires f in c.flights
  {
    c.(flights := c.flights[f := c.flights[f].(answer := a)])
  }

  predicate CanFinish(c: Core, f: nat) {
    f in c.flights && !c.flights[f].answer.Outstanding?
  }

  function Outcome(a: Answer): Option<map<Key, Raw>> {
    if a.Answered? then Some(a.response) else None
  }

  /** The locked part of `fetchMissing`. */
  function Finish(c: Core, f: nat): Core
    requires CanFinish(c, f)
  {
    var flight := c.flights[f];
    c.(cache := FinishFetch(c.cache, flight.keys, Outcome(flight.answer)),
       flights := c.flights - {f},
       served := if flight.answer.Answered? then c.served + flight.keys else c.served)
  }

  // ---- Single-flight ownership ----

  predicate Held(c: Core, k: Key) {
    k in c.cache.data || k in c.cache.pending
  }

  ghost predicate Claimed(c: Core, k: Key) {
    exists f :: f in c.flights && k in c.flights[f].keys
  }

  /** Flights have ids and keys of their own, and hold each of their keys cached or pending. */
  ghost predicate FlightsApart(c: Core) {
    && (forall f :: f in c.flights ==> f < c.nextFlight && NoDuplicates(c.flights[f].keys))
    && (forall f, k :: f in c.flights && k in c.flights[f].keys ==> Held(c, k))
    && (forall f, g, k :: f in c.flights && g in c.flights && k in c.flights[f].keys && f != g ==>
          k !in c.flights[g].keys)
  }

  /** A key served by a successful fetch stays cached and is in no other fetch. */
  ghost predicate ServedOnce(c: Core) {
    && NoDuplicates(c.served)
    && (forall k :: k in c.served ==> k in c.cache.data)
    && (forall f, k :: f in c.flights && k in c.flights[f].keys ==> k !in c.served)
  }

  ghost predicate Owned(c: Core) {
    && Valid(c.cache)
    && FlightsApart(c)
    && (forall k :: k in c.cache.pending ==> Claimed(c, k))
    && ServedOnce(c)
  }

  lemma {:induction false} ReceiveOwned(c: Core, n: nat)
    requires Owned(c) && CanReceive(c, n)
    ensures Owned(Receive(c, n))
  {
    var c' := Receive(c, n);
    var batch := Merge(c.store.log[c.applied..c.applied + n]);
    AssignValid(c.cache, Restrict(batch, c.cache.data.Keys + c.cache.pending.Keys));
    assert forall k :: Held(c', k) <==> Held(c, k);
    forall k | k in c'.cache.pending ensures Claimed(c', k) {
      assert Claimed(c, k);
    }
  }

  lemma {:induction false} LaunchCache(c: Core, owner: nat, keys: seq<Key>)
    requires Valid(c.cache)
    ensures var c' := Launch(c, owner, keys);
      && Valid(c'.cache)
      && c'.cache.data == c.cache.data
      && c'.cache.pending.Keys == c.cache.pending.Keys + Elements(Missing(c, keys))
      && NoDuplicates(Missing(c, keys))
      && Elements(Missing(c, keys)) == Elements(keys) - c.cache.data.Keys - c.cache.pending.Keys
  {
    NotExistToPendingValid(c.cache, keys);
    NotExistToPendingMoves(c.cache, keys);
    MissingOnce(c.cache, keys);
  }

  lemma {:induction false} LaunchApart(c: Core, owner: nat, keys: seq<Key>)
    requires Owned(c)
    ensures FlightsApart(Launch(c, owner, keys)) && ServedOnce(Launch(c, owner, keys))
  {
    var c' := Launch(c, owner, keys);
    var missing := Missing(c, keys);
    LaunchCache(c, owner, keys);
    forall k | k in missing ensures !Held(c, k) && Held(c', k) {
      assert k in Elements(missing);
    }
    assert forall f :: f in c'.flights ==>
      c'.flights[f].keys == if f in c.flights then c.flights[f].keys else missing;
    forall f, k | f in c'.flights && k in c'.flights[f].keys ensures Held(c', k) {
      assert f in c.flights ==> Held(c, k);
    }
  }

  lemma {:induction false} LaunchOwned(c: Core, owner: nat, keys: seq<Key>)
    requires Owned(c)
    ensures Owned(Launch(c, owner, keys))
  {
    var c' := Launch(c, owner, keys);
    LaunchCache(c, owner, keys);
    LaunchApart(c, owner, keys);
    forall k | k in c'.cache.pending ensures Claimed(c', k) {
      if k in c.cache.pending {
        var f :| f in c.flights && k in c.flights[f].keys;
        assert f in c'.flights && c'.flights[f] == c.flights[f];
      } else {
        assert k in Elements(Missing(c, keys));
        assert c'.flights[c.nextFlight].keys == Missing(c, keys);
      }
    }
  }

  lemma {:induction false} ReplyOwned(c: Core, f: nat, a: Answer)
    requires Owned(c) && f in c.flights
    ensures Owned(Reply(c, f, a))
  {
    var c' := Reply(c, f, a);
    assert forall g :: g in c'.flights ==> c'.flights[g].keys == c.flights[g].keys;
    forall k | k in c'.cache.pending ensures Claimed(c', k) {
      var g :| g in c.flights && k in c.flights[g].keys;
      assert g in c'.flights && k in c'.flights[g].keys;
    }
    forall g, k | g in c'.flights && k in c'.flights[g].keys ensures Held(c', k) {
      assert Held(c, k);
    }
  }

  /** What a finishing flight leaves: its keys are not pending, and cached if it succeeded. */
  lemma {:induction false} FinishCache(c: Core, f: nat)
    requires Owned(c) && CanFinish(c, f)
    ensures var c' := Finish(c, f); var keys := Elements(c.flights[f].keys);
      && Valid(c'.cache)
      && c.cache.data.Keys <= c'.cache.data.Keys
      && c'.cache.pending.Keys <= c.cache.pending.Keys - keys
      && c'.cache.data.Keys !! c'.cache.pending.Keys
      && (c.flights[f].answer.Answered? ==>
            && keys <= c'.cache.data.Keys
            && (forall k :: Held(c, k) ==> Held(c', k)))
      && (!c.flights[f].answer.Answered? ==> c'.cache.pending.Keys == c.cache.pending.Keys - keys)
  {
    var flight := c.flights[f];
    if flight.answer.Answered? {
      AssignValid(c.cache, Installed(c.cache, flight.keys, flight.answer.response));
      forall k | k in Elements(flight.keys) ensures k in Finish(c, f).cache.data {
        assert Held(c, k);
      }
    } else {
      DropValid(c.cache, Elements(flight.keys));
    }
  }

  lemma {:induction false} FinishServedOnce(c: Core, f: nat)
    requires Owned(c) && CanFinish(c, f)
    ensures ServedOnce(Finish(c, f))
  {
    var c' := Finish(c, f);
    var keys := c.flights[f].keys;
    FinishCache(c, f);
    assert forall k :: k in keys ==> k in Elements(keys);
    if c.flights[f].answer.Answered? {
      assert forall k :: k in c.served ==> k !in keys;
      NoDuplicatesConcat(c.served, keys);
      forall g, k | g in c'.flights && k in c'.flights[g].keys ensures k !in c'.served {
        assert g != f;
      }
    }
  }

  lemma {:induction false} FinishOwned(c: Core, f: nat)
    requires Owned(c) && CanFinish(c, f)
    ensures Owned(Finish(c, f))
  {
    var c' := Finish(c, f);
    FinishCache(c, f);
    FinishServedOnce(c, f);
    forall g, k | g in c'.flights && k in c'.flights[g].keys ensures Held(c', k) {
      assert g != f && Held(c, k) && k !in Elements(c.flights[f].keys);
    }
    forall k | k in c'.cache.pending ensures Claimed(c', k) {
      var g :| g in c.flights && k in c.flights[g].keys;
      assert k in c.cache.pending && k !in Elements(c.flights[f].keys);
      assert g in c'.flights && k in c'.flights[g].keys;
    }
  }
}
