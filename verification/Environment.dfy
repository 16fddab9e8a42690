/** The assumptions of the protocol, met by the feed and by the example datastore. */
module Environment {
  import opened Values
  import opened StoreLog
  import opened CacheSpec
  import opened Flights
  import Feed
  import GetMany

  // ---- The feed ----

  /**
   * A delivery of the feed is the `FeedReceive` step of the protocol: with the cursor behind the
   * applied part of the log, the cache and the reported keys are those of that step.
   */
  lemma {:induction false} DeliveryIsReceive(log: seq<Feed.Entry>, ms: seq<Message>, start: nat, c: Core, t: Feed.Turn)
    requires start <= |ms| && c.store.log == ms[start..]
    requires Feed.Consumed(log, ms, start + c.applied, t) && |t.batch| == 1
    requires c.unpublished == None
    ensures CanReceive(c, t.count)
    ensures ReceivesBatch(c, t.count, t.batch[0])
  {
    var n := t.count;
    assert c.store.log[c.applied..c.applied + n] == ms[start + c.applied..start + c.applied + n];
    BatchIsReceived(c, n, t.batch[0]);
  }

  /** Receiving `n` messages updates the cache with this batch, and then its keys are published. */
  ghost predicate ReceivesBatch(c: Core, n: nat, batch: Message)
    requires CanReceive(c, n)
  {
    var c' := Receive(c, n);
    && c'.cache == SetIfExist(c.cache, batch) && c'.applied == c.applied + n
    && Publish(c').topic == c.topic + [Publication(batch.Keys, c.applied + n)]
  }

  lemma {:induction false} BatchIsReceived(c: Core, n: nat, batch: Message)
    requires CanReceive(c, n) && batch == Merge(c.store.log[c.applied..c.applied + n])
    ensures ReceivesBatch(c, n, batch)
  {
  }

  // ---- The example datastore ----

  /** The answer of the example datastore meets what the protocol expects of a fetch. */
  lemma {:induction false} ExampleAnswerIsHonest(c: Core, f: nat, content: map<Key, Raw>, n: GetMany.Nested,
                                                 kv: map<Key, Raw>)
    requires f in c.flights && c.flights[f].answer.Outstanding?
    requires forall k :: Normalize(Lookup(content, k)) == c.store.At(k, |c.store.log|)
    requires GetMany.Answers(c.flights[f].keys, content, n) && GetMany.Flattens(n, kv)
    ensures CanReply(c, f, Answered(kv)) && Asked(c, f, Answered(kv))
  {
    var keys := c.flights[f].keys;
    GetMany.FlattenUndoesNest(keys, content, n, kv);
    forall k | k in kv ensures Normalize(kv[k]) == c.store.At(k, |c.store.log|) {
      assert kv[k] == Lookup(content, k);
    }
    forall k | k in keys && k !in kv ensures c.store.At(k, |c.store.log|) == Nil {
      assert Lookup(content, k) == Nil;
    }
  }
}
