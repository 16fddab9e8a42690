/** The endless loop of the datastore, run against a redis server for any number of turns. */
module FeedLoop {
  import opened Values
  import opened StoreLog
  import opened CacheSpec
  import opened CacheObject
  import opened Feed

  // ---- The server ----

  ghost predicate DistinctIds(log: seq<Entry>) {
    forall i, j :: 0 <= i < j < |log| ==> log[i].id != log[j].id
  }

  /** Where the server goes on for a cursor. */
  function PositionOf(log: seq<Entry>, cursor: string): (p: nat)
    ensures p <= |log|
  {
    if log == [] then 0
    else if log[|log| - 1].id == cursor then |log|
    else PositionOf(log[..|log| - 1], cursor)
  }

  lemma {:induction false} PositionIs(log: seq<Entry>, cursor: string, p: nat)
    requires DistinctIds(log) && At(log, cursor, p)
    ensures PositionOf(log, cursor) == p
  {
    var n := |log| - 1;
    if log[n].id == cursor {
      CursorNamesOnePosition(log, cursor, p, n + 1);
    } else {
      PositionIs(log[..n], cursor, p);
    }
  }

  /** The server sends at most ten entries, and only those it has. */
  function Limited(log: seq<Entry>, p: nat, e: Exchange): Exchange
    requires p <= |log|
  {
    if e.Sends? then Sends(Least(e.count, Least(10, |log| - p))) else e
  }

  function Least(a: nat, b: nat): nat {
    if a < b then a else b
  }

  /** The XREAD command: what is behind this cursor, as the exchange goes. */
  function Xread(log: seq<Entry>, cursor: string, e: Exchange): Response {
    var p := PositionOf(log, cursor);
    ResponseTo(log, p, Limited(log, p, e))
  }

  // ---- The loop ----

  ghost function KeysOf(published: seq<set<Key>>): set<Key> {
    if published == [] then {} else KeysOf(published[..|published| - 1]) + published[|published| - 1]
  }

  lemma {:induction false} KeysOfNext(published: seq<set<Key>>, more: set<Key>)
    ensures KeysOf(published + [more]) == KeysOf(published) + more
  {
    assert (published + [more])[..|published|] == published;
  }

  /** What the loop has done: the messages up to `q` are in the cache, and their keys are published. */
  ghost predicate Followed(ms: seq<Message>, p: nat, q: nat, c: CacheState, c': CacheState, keys: set<Key>) {
    && p <= q <= |ms|
    && c' == CacheSpec.SetIfExist(c, Merge(ms[p..q])) && keys == Merge(ms[p..q]).Keys
  }

  lemma {:induction false} FollowedNothing(ms: seq<Message>, p: nat, c: CacheState)
    requires p <= |ms|
    ensures Followed(ms, p, p, c, c, {})
  {
    assert ms[p..p] == [];
    SetIfExistNothing(c);
  }

  lemma {:induction false} FollowedMore(ms: seq<Message>, p: nat, q: nat, r: nat, batch: Message, c: CacheState,
                                        c': CacheState, keys: set<Key>)
    requires Followed(ms, p, q, c, c', keys) && q <= r <= |ms| && batch == Merge(ms[q..r])
    ensures Followed(ms, p, r, c, CacheSpec.SetIfExist(c', batch), keys + batch.Keys)
  {
    MergeSegments(ms, p, q, r);
    SetIfExistMerge(c, Merge(ms[p..q]), Merge(ms[q..r]));
  }

  /** Each publication was made when the cache held exactly the messages whose keys were published until then. */
  ghost predicate InStep(ms: seq<Message>, p: nat, c: CacheState, published: seq<set<Key>>, seen: seq<CacheState>) {
    |published| == |seen| && forall j :: 0 <= j < |seen| ==> Reports(ms, p, c, seen[j], published[..j + 1])
  }

  /** These are the keys of the messages that are in the cache. */
  ghost predicate Reports(ms: seq<Message>, p: nat, c: CacheState, c': CacheState, published: seq<set<Key>>) {
    exists q: nat :: Followed(ms, p, q, c, c', KeysOf(published))
  }

  lemma {:induction false} InStepNext(ms: seq<Message>, p: nat, c: CacheState, c': CacheState,
                                      published: seq<set<Key>>, seen: seq<CacheState>, more: set<Key>)
    requires InStep(ms, p, c, published, seen) && Reports(ms, p, c, c', published + [more])
    ensures InStep(ms, p, c, published + [more], seen + [c'])
  {
    var published', seen' := published + [more], seen + [c'];
    forall j | 0 <= j < |seen'| ensures Reports(ms, p, c, seen'[j], published'[..j + 1]) {
      if j < |seen| {
        assert published'[..j + 1] == published[..j + 1];
      } else {
        assert published'[..j + 1] == published';
      }
    }
  }

  /** What a turn publishes. */
  function Publishes(t: Feed.Turn): seq<set<Key>> {
    if t.batch == [] then [] else [t.batch[0].Keys]
  }

  /** The cache after a turn. */
  function ApplyTurn(c: CacheState, t: Feed.Turn): CacheState {
    if t.batch == [] then c else CacheSpec.SetIfExist(c, t.batch[0])
  }

  /** The cache as the publication of a turn sees it. */
  function SeenBy(c': CacheState, t: Feed.Turn): seq<CacheState> {
    if t.batch == [] then [] else [c']
  }

  lemma {:induction false} FollowedBatch(ms: seq<Message>, p: nat, q: nat, r: nat, batch: Message,
                                         c: CacheState, c1: CacheState, published: seq<set<Key>>)
    requires Followed(ms, p, q, c, c1, KeysOf(published)) && q <= r <= |ms| && batch == Merge(ms[q..r])
    ensures Followed(ms, p, r, c, CacheSpec.SetIfExist(c1, batch), KeysOf(published + [batch.Keys]))
  {
    FollowedMore(ms, p, q, r, batch, c, c1, KeysOf(published));
    KeysOfNext(published, batch.Keys);
  }

  /** What the loop has done to cache and topic. */
  ghost predicate Did(ms: seq<Message>, p: nat, q: nat, c: CacheState, c': CacheState, published: seq<set<Key>>,
                      seen: seq<CacheState>) {
    Followed(ms, p, q, c, c', KeysOf(published)) && InStep(ms, p, c, published, seen)
  }

  lemma {:induction false} DidNext(ms: seq<Message>, p: nat, q: nat, t: Feed.Turn, c: CacheState, c1: CacheState,
                                   published: seq<set<Key>>, seen: seq<CacheState>)
    requires Did(ms, p, q, c, c1, published, seen) && Delivers(ms, q, t)
    ensures Did(ms, p, q + t.count, c, ApplyTurn(c1, t), published + Publishes(t), seen + SeenBy(ApplyTurn(c1, t), t))
  {
    if t.batch == [] {
      assert published + [] == published && seen + [] == seen;
    } else {
      FollowedBatch(ms, p, q, q + t.count, t.batch[0], c, c1, published);
      InStepNext(ms, p, c, ApplyTurn(c1, t), published, seen, t.batch[0].Keys);
    }
  }

  /** The loop has consumed the entries from `p` to `q`, and the cursor stands behind them. */
  ghost predicate Stands(log: seq<Entry>, p: nat, q: nat, cursor: string) {
    p <= q <= |log| && At(log, cursor, q) && GoodLog(log[p..q])
  }

  lemma {:induction false} StandsNext(log: seq<Entry>, ms: seq<Message>, p: nat, q: nat, t: Feed.Turn)
    requires Stands(log, p, q, t.from) && Consumed(log, ms, q, t)
    ensures Stands(log, p, q + t.count, t.to) && Delivers(ms, q, t)
  {
    GoodJoined(log, p, q, q + t.count);
  }

  /** One turn of the loop against the server, as a turn of a feed. */
  method Turn(service: Service, cache: Cache, topic: Topic, read: string -> Raw, log: seq<Entry>, e: Exchange,
              ghost q: nat)
    returns (ghost t: Feed.Turn)
    requires Valid(cache.State()) && HasIds(log) && DistinctIds(log) && At(log, service.lastId, q)
    requires e.Garbled? ==> Meaning(read, e.reply).Malformed?
    modifies service, cache, topic
    ensures Valid(cache.State()) && Consumed(log, Messages(read, log), q, t)
    ensures t.from == old(service.lastId) && t.to == service.lastId
    ensures cache.State() == ApplyTurn(old(cache.State()), t)
    ensures topic.published == old(topic.published) + Publishes(t)
    ensures topic.seen == old(topic.seen) + SeenBy(cache.State(), t)
  {
    PositionIs(log, service.lastId, q);
    ghost var from := service.lastId;
    var response := Xread(log, service.lastId, e);
    ReceiveOnce(service, cache, topic, read, response);
    ghost var x := Limited(log, q, e);
    t := Feed.Turn(Count(log, q, x), from, service.lastId, Batch(read, response));
    assert Makes(read, log, q, x, t);
    UpdateAdvances(read, log, Messages(read, log), q, t);
  }

  /** The state of the loop. */
  ghost predicate Following(log: seq<Entry>, ms: seq<Message>, p: nat, q: nat, cursor: string, c: CacheState,
                            c': CacheState,
                            published: seq<set<Key>>, seen: seq<CacheState>) {
    Stands(log, p, q, cursor) && Did(ms, p, q, c, c', published, seen)
  }

  lemma {:induction false} FollowingStarts(log: seq<Entry>, ms: seq<Message>, p: nat, cursor: string, c: CacheState)
    requires |log| == |ms| && At(log, cursor, p)
    ensures Following(log, ms, p, p, cursor, c, c, [], [])
  {
    FollowedNothing(ms, p, c);
  }

  lemma {:induction false} FollowingNext(log: seq<Entry>, ms: seq<Message>, p: nat, q: nat, t: Feed.Turn, c: CacheState,
                                         c1: CacheState,
                                         published: seq<set<Key>>, seen: seq<CacheState>)
    requires Following(log, ms, p, q, t.from, c, c1, published, seen) && Consumed(log, ms, q, t)
    ensures Following(log, ms, p, q + t.count, t.to, c, ApplyTurn(c1, t),
                      published + Publishes(t), seen + SeenBy(ApplyTurn(c1, t), t))
  {
    StandsNext(log, ms, p, q, t);
    DidNext(ms, p, q, t, c, c1, published, seen);
  }

  lemma {:induction false} FollowingEnds(log: seq<Entry>, ms: seq<Message>, p: nat, q: nat, cursor: string,
                                         c: CacheState, c': CacheState,
                                         published: seq<set<Key>>, seen: seq<CacheState>)
    requires |ms| == |log| && Following(log, ms, p, q, cursor, c, c', published, seen)
    ensures p <= q && At(log, cursor, q) && GoodLog(log[p..q])
    ensures c' == ApplyEach(c, ms[p..q]) && KeysOf(published) == Merge(ms[p..q]).Keys
    ensures InStep(ms, p, c, published, seen)
  {
    ApplyEachIsMerge(c, ms[p..q]);
  }

  /** One turn, as a step of the loop. */
  method Follow(service: Service, cache: Cache, topic: Topic, read: string -> Raw, log: seq<Entry>, e: Exchange,
                ghost p: nat, ghost q: nat, ghost c: CacheState,
                ghost published: seq<set<Key>>, ghost seen: seq<CacheState>)
    returns (ghost t: Feed.Turn)
    requires Valid(cache.State()) && HasIds(log) && DistinctIds(log)
    requires Following(log, Messages(read, log), p, q, service.lastId, c, cache.State(), published, seen)
    requires e.Garbled? ==> Meaning(read, e.reply).Malformed?
    modifies service, cache, topic
    ensures Valid(cache.State())
    ensures Following(log, Messages(read, log), p, q + t.count, service.lastId, c, cache.State(),
                      published + Publishes(t), seen + SeenBy(cache.State(), t))
    ensures topic.published == old(topic.published) + Publishes(t)
    ensures topic.seen == old(topic.seen) + SeenBy(cache.State(), t)
  {
    ghost var before := cache.State();
    t := Turn(service, cache, topic, read, log, e, q);
    FollowingNext(log, Messages(read, log), p, q, t, c, before, published, seen);
  }

  lemma {:induction false} Assoc<T>(a: seq<T>, b: seq<T>, c: seq<T>)
    ensures (a + b) + c == a + (b + c)
  {
  }

  /**
   * `receiveKeyChanges` for any number of turns, whatever happens in them: the cache is as if
   * the next messages of the log had been applied one by one, each once and in order; exactly
   * their keys were published, each time after the cache had the messages; and the cursor stands
   * behind them.
   */
  method ReceiveKeyChanges(service: Service, cache: Cache, topic: Topic, read: string -> Raw, log: seq<Entry>,
                           exchanges: seq<Exchange>, ghost p: nat)
    returns (ghost q: nat, ghost published: seq<set<Key>>, ghost seen: seq<CacheState>)
    requires Valid(cache.State()) && HasIds(log) && DistinctIds(log) && At(log, service.lastId, p)
    requires forall e :: e in exchanges && e.Garbled? ==> Meaning(read, e.reply).Malformed?
    modifies service, cache, topic
    ensures Valid(cache.State()) && p <= q && At(log, service.lastId, q) && GoodLog(log[p..q])
    ensures |Messages(read, log)| == |log|
    ensures cache.State() == ApplyEach(old(cache.State()), Messages(read, log)[p..q])
    ensures topic.published == old(topic.published) + published && topic.seen == old(topic.seen) + seen
    ensures KeysOf(published) == Merge(Messages(read, log)[p..q]).Keys
    ensures InStep(Messages(read, log), p, old(cache.State()), published, seen)
  {
    ghost var ms := Messages(read, log);
    MessagesPrefix(read, log, 0);
    q, published, seen := p, [], [];
    ghost var start := cache.State();
    FollowingStarts(log, ms, p, service.lastId, start);
    for i := 0 to |exchanges|
      invariant Valid(cache.State())
      invariant Following(log, ms, p, q, service.lastId, start, cache.State(), published, seen)
      invariant topic.published == old(topic.published) + published && topic.seen == old(topic.seen) + seen
    {
      var t := Follow(service, cache, topic, read, log, exchanges[i], p, q, start, published, seen);
      Assoc(old(topic.published), published, Publishes(t));
      Assoc(old(topic.seen), seen, SeenBy(cache.State(), t));
      q, published, seen := q + t.count, published + Publishes(t), seen + SeenBy(cache.State(), t);
    }
    FollowingEnds(log, ms, p, q, service.lastId, start, cache.State(), published, seen);
  }
}
