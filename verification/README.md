# A verified model of the autoupdate service

The autoupdate service keeps the views of many clients in step with a datastore that changes.
This project models the pieces that do that work and proves that together they keep the promise:
what a client has put together from the small deltas it was sent is the restricted datastore, no
older than the topic id it has seen, and exactly the datastore once nothing is left to report.

| file | what it is about |
|---|---|
| `Values.dfy`, `Store.dfy` | keys, JSON values, the datastore as a log of messages, last-wins merging |
| `CacheSpec.dfy`, `Cache.dfy` | the lock-protected sections of the cache: as functions, and as the object that changes its maps |
| `Flights.dfy`, `Calls.dfy`, `CallRuns.dfy` | any number of concurrent `GetOrSet` calls, fetches, updates and publications as a transition system, and its runs |
| `Freshness.dfy`, `SingleFlight.dfy`, `Progress.dfy` | what every run keeps: fresh data, one fetch per key, channels, no stuck call |
| `ForeignAnswer.dfy`, `OthersFailure.dfy`, `ZeroId.dfy` | runs that show why the assumptions are needed, and which branch is not dead |
| `Feed.dfy`, `FeedLoop.dfy` | the redis stream parser, the cursor, and the loop that feeds the cache and the topic |
| `Fields.dfy`, `Request.dfy`, `Builder.dfy` | field descriptions, the recursive meaning of a request, and the breadth-first worklist |
| `RequestJson.dfy` | reading a request from JSON, and the path that an error reports |
| `Delta.dfy`, `Connection.dfy` | the delta filter and the connection object |
| `EndToEnd.dfy`, `Session.dfy` | a client session inside a run of the whole service, and the code of `Next` as such a session |
| `Visibility.dfy` | sessions with the real restricter and its permission service: nothing hidden is shown, and what is permitted is reached |
| `Restrict.dfy`, `GetMany.dfy`, `Environment.dfy` | the restricter, the get_many protocol, and how feed and datastore meet the assumptions of the protocol |

Map iteration in Go has no fixed order. A loop over a map picks an arbitrary key here, so what is
proved holds for every order. A lock-protected section of the cache is one atomic step. The read
loop of `GetOrSet` may be interrupted after every key, which allows more interleavings than the
read lock does.

## Assumptions

- The datastore answers a fetch with its current values and only with keys it was asked for
  (`Flights.Truthful`, `Flights.Asked`). Ownership, channels and progress do not need the second
  half; freshness does, as `ForeignAnswer.ForeignAnswerGoesStale` shows. The example datastore meets
  both (`Environment.ExampleAnswerIsHonest`).
- The feed starts from a known cursor, and every entry of the redis stream has an id.
- The topic is a list of key sets. `Receive` returns the newest id and the keys published after the
  id it was given. An id that was pruned is an error of `Receive`.
- The restricter may give a relation list in another order each time. In the statements about
  sessions `Config.restricts` is the relation between a value and what the restricter gave for it in
  the run at hand; it may be any relation. For the statements about keys its values for one stored
  value must be the same up to the order of lists. `Visibility` derives this for the real restricter.
- Two answers of the permission service agree with each other, and it grants nothing that it was not
  asked for (`Restricting.Consistent`). `Restricting.Restrict` and its checkers do not need this; only
  the reading of their results as "exactly what is permitted" does.
- The 64-bit hash of a value may collide or be zero. That deltas equal full data is proved exactly
  for the runs in which no change hides (`Delta.NothingHidden`), and that each response is minimal is
  proved for every hash. The end-to-end results assume `EndToEnd.TellsVersions` of the run at hand:
  two different non-empty values that the restricter gave for one key have different hashes, and
  these are not zero.
- A connection ends at its first error (internal/http/http.go:71-82). The topic id is taken before
  the keys are built (internal/http/http.go:52-56). If that id is zero the first `Next` takes a newer
  one; `ZeroId.ZeroIdMissesUpdate` is a run in which the client then misses a key until something
  else is published. So until a later call has built the keys again, the statement about the request's
  meaning has the condition `EndToEnd.GapHarmless`: nothing published in that gap changed a key that
  the build followed.

## Where code and documentation differ

- The comment on `GetOrSet` says that calls for a key that is being fetched are blocked until the
  answer is there, and another one says that such a call tries once more when the fetch fails. If the
  fetch fails before the call reads, it returns a not-exist error instead
  (`OthersFailure.OthersFailureReachesNotExist`), and only a failed fetch of another call leads there
  (`SingleFlight.FailureHasCause`). A call that waits tries again as often as fetches of others fail,
  without any bound (`OthersFailure.RetriesAreUnbounded`).
- The filter and `Next` use the hash zero for "the client has no value", though a value can have that
  hash. Then its removal is not sent, or the value itself is not sent after a removal
  (`Delta.ZeroHashStays`, `Delta.ZeroHashNeverComes`). `Delta.Hides` lists all changes that are lost.
- The stream parser rejects a reply as a whole when one key has not three parts, and the cursor then
  stays. So one malformed entry stops the feed in front of it (`Feed.BadEntryBlocks`).
- Two bodies, or two paths, that describe one key differently in one round overwrite each other, and
  keys can be lost. Of two bodies the later one wins always, so there are requests for which every
  `Update` misses a key (`KeysBuilder.ClashingUpdateLosesKey`). If the request is clear, that is no
  key is offered two descriptions at one depth, nothing is lost (`Request.ClearRequestIsExact`).
  `Request.CompleteIffLossesHarmless` says of each build exactly when nothing is lost.
- An invalid field below a top-level field with the empty name is reported without its path
  (`RequestJson.UnnamedLosesPath`). `RequestJson.Explain` says for which bodies this happens.
- A permission answer that grants an id nobody asked for puts the id 0 into a relation list, and puts
  the foreign name into a generic one (`Restricting.SelectedIffAsked`, `Restricting.ListingIffAsked`).

## Model

| member | source | states |
|---|---|---|
| Session.ResponsesConverge | internal/autoupdate/connection.go:23-104 | End to end, for the calls of `Next` themselves: when the log has ended and `tid` stands for all of it, the view made of the responses is the restricted store on the current keys, up to the order of lists; if a later call has refreshed the keys, or the gap of an id that was zero is harmless, these are keys of the request's meaning over that store, and all of them if the request is clear over it or no level of the last build was ambiguous |
| Visibility.ConvergesToPermitted | internal/autoupdate/connection.go:23-104 | The same with the real restricter: the client shows what the permissions permit of the store, and its keys are the meaning of its request over just that |
| Visibility.PermittedIsSnapshot | internal/restrict/restrict.go:40-82 | Whatever order the restricter chose, what it gave for the final store agrees up to order with what the rights permit of it |
| Visibility.GivenIsWithin | internal/restrict/restrict.go:40-82 | With a consistent permission service, everything the restricter gave in a series of calls is within the rights |
| Visibility.ServiceRespects | internal/autoupdate/autoupdate.go:102-104 | With a consistent permission service the results of `Restrict` respect the rights, in every map order |
| Visibility.ReadsAreGot | internal/autoupdate/autoupdate.go:91-106 | Reads of a run that go through the restricter are what a session of the run may read |
| Session.ResponsesAreUpToDate | internal/autoupdate/connection.go:23-104 | After every `Next`, each current key shows in the client's view its restricted value at a log position not older than `tid`, under every interleaving |
| Session.ServedIsSession | internal/http/http.go:52-82 | Every series of successful `Next` calls against the answers of a run is a session of that run, and its responses build the view of the session |
| Session.ResponsesAreMinimal | internal/autoupdate/connection.go:92-101 | For every hash and every series of calls, also after errors, each entry of each response changes what the client has |
| Visibility.ResponsesAreVisible | internal/autoupdate/autoupdate.go:91-106 | No response of any series of calls holds a value, or names an object in a relation list, that the user may not see |
| Visibility.ViewIsVisible | internal/autoupdate/connection.go:23-104 | So the view the client puts together from deltas never holds anything hidden from its user |
| Visibility.RestrictedIsVisible | internal/restrict/restrict.go:40-82 | A restricted value, decoded again, names only objects the user may see |
| Session.SeriesKnows | internal/autoupdate/filter.go:16-38 | For every hash: before every call the history holds the hash of each value the client has, and zero or nothing for every other key |
| Session.UpdateBuilds | internal/keysbuilder/keysbuilder.go:45-113 | An `Update` whose data comes from reads of a run is a build of that run |
| EndToEnd.Convergence | internal/autoupdate/connection.go:23-104 | The same for sessions as a relation: a client that has caught up has the restricted store on its keys, its keys are keys of the request's meaning, and all of them if the request is clear or the build unambiguous; only right after the first call does this need a harmless gap |
| EndToEnd.FirstKeysAreMeant | internal/autoupdate/connection.go:24-33 | The keys of the first call are keys of the request's meaning, and all of them if the request is clear or the build unambiguous, if nothing published between taking a zero id and replacing it changed a key that the build followed |
| EndToEnd.ClientIsUpToDate | internal/autoupdate/connection.go:50-101 | After every round each followed key shows a value not older than the topic id, in the view made of deltas |
| EndToEnd.CaughtUpShowsStore | internal/autoupdate/connection.go:50-101 | When the id stands for the whole log the client shows what the restricter makes of the final store on its keys |
| EndToEnd.CurrentUntilReported | internal/autoupdate/autoupdate.go:40-47 | A value that is current at one topic id stays current until the topic reports its key |
| EndToEnd.ReadIsCurrent | internal/autoupdate/autoupdate.go:91-106 | Restricted data is current as of every update applied when the read began |
| EndToEnd.LateKeysAreMeant | internal/keysbuilder/keysbuilder.go:45-113 | Keys built when nothing was left to report are keys of the request's meaning over the final store, and all of them if the request is clear or the build unambiguous |
| EndToEnd.VersionsNeverHide | internal/autoupdate/filter.go:16-38 | If the hash tells apart what the restricter gave for each key in the run, no response in the run hides a change |
| ZeroId.ZeroIdMissesUpdate | internal/autoupdate/connection.go:24-29 | A run in which an id of zero makes a caught-up client miss a key of its request, because a followed key was published in the gap |
| CallRuns.CacheIsFresh | internal/datastore/cache.go:135-184 | In every run, with slow fetches, failures and pushed updates in any order, a cached value is the store's value at a position at or after the last applied update, and the store's current value once all are applied |
| CallRuns.RunInv | internal/datastore/cache.go:65-184 | Every state of every run keeps ownership, freshness, the topic's agreement with the log, and well-formed calls |
| CallRuns.GetOrSetIsFresh | internal/datastore/cache.go:65-129 | A successful `GetOrSet` answers its keys index by index; each value was the cached value during the call and is as fresh as the position applied when the call began |
| CallRuns.ResultsAreReads | internal/datastore/cache.go:90-126 | Every result a call has collected was in the cache at some moment since the call began |
| CallRuns.NullIsNeverCached | internal/datastore/cache.go:213-216 | In every run, whatever the datastore answers and the feed delivers, no cached value is the document null |
| CallRuns.NullIsNeverReturned | internal/datastore/cache.go:213-216 | No result of a call is null |
| StoreLog.AtIsLastWrite | internal/datastore/cache.go:174-184 | The store value that freshness refers to is the last write of the key, or the value of the start, with null as nil |
| Visibility.NullIsRemoved | internal/datastore/cache.go:213-216 | A key whose last write is null has no value for any user, so a client that has caught up does not have it |
| ForeignAnswer.ForeignAnswerGoesStale | internal/datastore/cache.go:157-161 | A run in which an answer for a key that was not asked for leaves stale data in the cache |
| OthersFailure.OthersFailureReachesNotExist | internal/datastore/cache.go:100-101 | A run with one fetch, started by one call and failing, that makes another call fail with the not-exist error |
| OthersFailure.RetriesAreUnbounded | internal/datastore/cache.go:113-122 | For every number there is an honest run in which one call has more calls of `GetOrSet` nested in it |
| Freshness.ReceiveFresh | internal/datastore/datastore.go:76-83 | Applying a batch keeps the cache and every answered fetch fresh |
| Freshness.FinishFresh | internal/datastore/cache.go:135-170 | Installing a slow answer never puts stale data into the cache |
| Freshness.UnreportedIsUntouched | internal/datastore/datastore.go:83-89 | The keys published between two ids are exactly the keys of the log between their positions |
| SingleFlight.PendingKeyHasOneFlight | internal/datastore/cache.go:195-237 | In every run no key is in the invalid state, and a pending key belongs to exactly one fetch in flight |
| SingleFlight.FlightsShareNoKey | internal/datastore/cache.go:65-78 | Fetches in flight at the same time share no key |
| SingleFlight.NoFlightNoPending | internal/datastore/cache.go:141-155 | Without a fetch in flight nothing is pending, also after failed fetches |
| SingleFlight.FetchedAtMostOnce | internal/datastore/cache.go:157-168 | Over a whole run each key is covered by at most one successful fetch |
| SingleFlight.NeverEvicted | internal/datastore/cache.go:212-222 | Cached keys stay cached |
| SingleFlight.NeverRefetched | internal/datastore/cache.go:228-237 | A fetch that starts after a key was cached does not ask for it |
| SingleFlight.ChannelClosedOnce | internal/datastore/cache.go:141-151 | A pending channel is open; the step in which its key leaves `pending` closes it and no other step does; no step closes a closed channel |
| SingleFlight.UndisturbedRunsAreSmooth | internal/datastore/cache.go:93-126 | In runs where no fetch fails no call ever reaches the not-exist, invalid or retry branch of the read loop |
| SingleFlight.UndisturbedCallIsSmooth | internal/datastore/cache.go:93-126 | Call by call: as long as no fetch fails for one of its own keys, a call reaches none of these branches, whatever happens to other keys |
| SingleFlight.FailureHasCause | internal/datastore/cache.go:97-119 | Conversely, if a call fails and was not cancelled, a fetch for one of its keys failed between its start and its failure; if it failed because a key is not in the cache, that was a fetch of another call |
| SingleFlight.OwnFetchIsAwaited | internal/datastore/cache.go:65-89 | In every run a running call has at most one fetch of its own in flight, and waits for it |
| Progress.NoCallIsStuck | internal/datastore/cache.go:80-124 | In every run a running call can take its next step or is blocked by a fetch that is still in flight |
| Progress.FinishUnblocks | internal/datastore/cache.go:141-151 | When that fetch ends, well or badly, the blocked call goes on or has failed |
| Flights.FinishCache | internal/datastore/cache.go:135-170 | A finished fetch leaves none of its keys pending, caches them all if it succeeded, and evicts nothing |
| Flights.LaunchCache | internal/datastore/cache.go:65-68 | Starting a call makes exactly its missing keys pending, each listed once |
| CacheSpec.SetIfExistMerge | internal/datastore/cache.go:174-184 | One merged update gives the same data, pending map and closed channels as two updates one after the other |
| CacheSpec.AssignStores | internal/datastore/cache.go:212-222 | What the cache stores for a key: nil for the document null, every other value as it is |
| CacheSpec.NotExistToPendingMoves | internal/datastore/cache.go:228-237 | Exactly the requested keys that are neither cached nor pending become pending |
| CacheSpec.MissingOnce | internal/datastore/cache.go:228-237 | A key that is requested many times is listed as missing once |
| CacheSpec.NotExistToPendingChans | internal/datastore/cache.go:228-237 | Pending keys keep their channel, new ones get channels never used before |
| CacheObject.Cache.constructor | internal/datastore/cache.go:39-44 | A new cache is empty and valid |
| CacheObject.Cache.Set | internal/datastore/cache.go:212-222 | Stores the value with null as nil, closes and removes the pending channel, keeps the cache valid |
| CacheObject.Cache.NotExistToPending | internal/datastore/cache.go:228-237 | The loop computes the new cache and the missing keys in order |
| CacheObject.Cache.SetIfExist | internal/datastore/cache.go:174-184 | In every iteration order the loop updates exactly the cached and pending keys |
| CacheObject.Cache.FinishFetch | internal/datastore/cache.go:135-170 | The two loops and the deferred clean-up together install every answered or requested pending key, or drop the requested ones on an error |
| CacheObject.FillTwice | internal/datastore/cache.go:157-168 | Filling the answered keys and then the missing ones installs exactly what a fetch should install |
| FeedLoop.ReceiveKeyChanges | internal/datastore/datastore.go:68-91 | After any number of turns with timeouts, errors and garbage the cache is as if the next log messages had been applied one by one, exactly their keys were published, and the cursor stands behind them; at each publication the cache already held exactly the messages whose keys were published until then |
| FeedLoop.Turn | internal/datastore/datastore.go:76-89 | A turn consumes what is behind its cursor, applies it to the cache, and publishes its keys when the cache has it |
| Feed.FeedFollowsLog | internal/redis/redis.go:29-46 | Every series of `Update` calls delivers one contiguous segment of the log, each message once and in order, never past a malformed entry |
| Feed.FeedIsContiguous | internal/redis/redis.go:29-46 | Each `Update` consumes the entries right behind the previous one; errors and nil replies leave the cursor |
| Feed.UpdateAdvances | internal/redis/redis.go:29-46 | One `Update` delivers the merge of the entries behind the cursor and moves it past them |
| Feed.BadEntryBlocks | internal/redis/stream.go:67-69 | No series of `Update` calls gets past an entry with a key that has not three parts |
| Feed.Stream | internal/redis/stream.go:16-79 | The parser returns the message-by-message reading of a reply with the id of its last message, and tells nil, malformed and well-formed replies apart |
| Feed.MeaningIff | internal/redis/stream.go:16-79 | That reading, said of the parts of the reply: only nil is nothing; a first stream that spells entries is read as these, with the last id; everything else is malformed |
| Feed.TwoSlashesIff | internal/redis/stream.go:67-69 | The test for a key accepts exactly the keys with three parts: a collection, an id and a field without slashes |
| Feed.AreEntriesIff | internal/redis/stream.go:41-78 | A list is read as these entries if and only if it spells them, with simple or bulk strings, keys and values in turn and keys with three parts |
| Feed.MessageHasLastPair | internal/redis/stream.go:62-76 | The last pair of a key in an entry gives its value |
| Feed.GoodPairsIff | internal/redis/stream.go:67-69 | An entry can be consumed if and only if all its keys have three parts |
| Feed.ParseEntries | internal/redis/stream.go:41-78 | The loop over entries merges their messages with the last write winning |
| Feed.ParsePairs | internal/redis/stream.go:62-76 | The loop over key-value pairs accepts exactly well-formed pairs and folds them in order |
| Feed.LogRoundTrip | internal/redis/stream.go:16-79 | Parsing undoes the server's encoding of a log segment, and rejects it if and only if a key has not three parts |
| Feed.Service.Update | internal/redis/redis.go:29-46 | The new cursor and the delivery as functions of the old cursor and the reply |
| Feed.ReceiveOnce | internal/datastore/datastore.go:76-89 | The cache gets the delivered batch, and then the same keys are published: the publication sees the new cache; after an error nothing changes |
| Feed.ApplyEachIsMerge | internal/datastore/cache.go:174-184 | Applying messages one by one equals applying their merge |
| StoreLog.MergeIsLastWrite | internal/redis/stream.go:75-75 | Merging keeps exactly the last write of each key |
| Environment.DeliveryIsReceive | internal/datastore/datastore.go:76-89 | A delivery of the feed is the receive step of the transition system, with the same cache and publication |
| Environment.ExampleAnswerIsHonest | cmd/datastore/main.go:79-97 | What the example datastore answers, flattened by the client, is truthful and holds only keys that were asked for |
| Request.BuiltIsMeant | internal/keysbuilder/keysbuilder.go:45-113 | Over a fixed snapshot, read up to the order of lists, every built key is in the recursive meaning of the request |
| Request.FollowsIff | internal/keysbuilder/fields.go:118-282 | Following a description leads exactly to the keys that the JSON value names, and nowhere if the value has another form |
| Request.RelationLeads | internal/keysbuilder/fields.go:118-127 | A relation leads to each of its fields of the one object with the id that is its value |
| Request.RelationListLeads | internal/keysbuilder/fields.go:146-159 | A relation list leads to each of its fields of each object that it lists, and nowhere else |
| Request.GenericLeads | internal/keysbuilder/fields.go:191-227 | A generic relation, or each entry of a list of them, leads to the fields of the object that it names |
| Request.TemplateLeads | internal/keysbuilder/fields.go:271-282 | A template leads to its key with each word of the list in place of the first dollar |
| Request.UnreadableIff | internal/keysbuilder/fields.go:118-282 | A value is an error for its description if and only if it is there and does not have the form of the description's type |
| Request.BodyRequestsIff | internal/keysbuilder/fields.go:73-79 | A body asks for exactly its fields of the objects with its ids |
| Request.FollowsUpToOrder | internal/keysbuilder/fields.go:118-282 | Where a value leads to does not depend on the order of a list |
| Request.BuiltIffMeant | internal/keysbuilder/keysbuilder.go:45-113 | The built keys are exactly the meaning if no level gives one key two descriptions |
| Request.ClearRequestIsExact | internal/keysbuilder/keysbuilder.go:45-113 | If the request is clear over the snapshot, a condition that does not speak of the build, every build has exactly the keys of the meaning |
| Request.OfferedIsMeant | internal/keysbuilder/fields.go:118-159 | What the request offers at any depth stands for keys of its meaning |
| Request.CompleteIffLossesHarmless | internal/keysbuilder/keysbuilder.go:90-105 | A given build has all keys of the meaning if and only if each description that was overwritten in it stands for keys that are built anyway |
| Request.ClashingBodiesLoseKeys | internal/keysbuilder/keysbuilder.go:53-57 | Two bodies for one key, the later without a relation: every build, over every snapshot with that relation, misses a key of the meaning |
| Request.NextWithin | internal/keysbuilder/keysbuilder.go:62-111 | The greatest depth of the descriptions drops in every round, also on cyclic data |
| Request.BuildIsShort | internal/keysbuilder/keysbuilder.go:62-111 | A build loads data at most as often as the request is deep |
| Request.RequestDepthIff | internal/keysbuilder/keysbuilder.go:62-111 | That depth is the length of the longest chain of descriptions to follow |
| Fields.WritesAreLessDeep | internal/keysbuilder/fields.go:118-159 | What a description writes is strictly less deep than the description |
| KeysBuilder.Builder.Update | internal/keysbuilder/keysbuilder.go:45-113 | The worklist goes through the levels of a build and asks the provider for exactly the keys to follow, at most as often as the request is deep; it lists exactly the built keys, or fails for the stated reason with an empty list |
| KeysBuilder.Builder.TakeRound | internal/keysbuilder/keysbuilder.go:62-111 | One round lists its level, asks for the followed keys, and reaches the next level or the end |
| KeysBuilder.Builder.ListLevel | internal/keysbuilder/keysbuilder.go:64-72 | All keys of the level are listed, and those with a description are collected once |
| KeysBuilder.Builder.Keys | internal/keysbuilder/keysbuilder.go:116-118 | The keys in a new array |
| KeysBuilder.KeysAcrossUpdate | internal/autoupdate/connection.go:59-67 | The old keys survive the update, although it writes into the array they were built in, and later updates can reach neither list |
| KeysBuilder.FollowAll | internal/keysbuilder/keysbuilder.go:90-105 | Following a level in any order gives the next level, or an error that names an unreadable key and its kind |
| KeysBuilder.FollowOne | internal/keysbuilder/fields.go:118-282 | One description writes exactly the keys it leads to, or fails on a value of the wrong form |
| KeysBuilder.Start | internal/keysbuilder/keysbuilder.go:53-57 | The first level holds exactly the keys the bodies ask for, each with the description of the last body that asks for it |
| KeysBuilder.ClashingUpdateLosesKey | internal/keysbuilder/keysbuilder.go:45-113 | For these two bodies every `Update`, with every provider, succeeds, asks for nothing and misses the key |
| KeysBuilder.PutBody | internal/keysbuilder/fields.go:73-79 | A body writes its fields for each of its ids |
| KeysBuilder.PutFields | internal/keysbuilder/fields.go:358-362 | A fields map writes each of its fields for one object and nothing else |
| RequestJson.Explain | internal/keysbuilder/error.go:16-49 | If no top-level field with the empty name is ill-formed, the reported path leads to a node that is itself faulty and the message is that node's fault; if it is the only ill-formed field, the path is empty and the message is no fault of the body; and no path is lost in another way |
| RequestJson.UnnamedLosesPath | internal/keysbuilder/error.go:16-33 | A body that is ill-formed only below a field with the empty name |
| RequestJson.ExplainUnnamed | internal/keysbuilder/error.go:16-49 | For that body the answer has an empty path and a message that does not describe the body |
| RequestJson.FieldsOf | internal/keysbuilder/error.go:35-49 | The chain walk returns the names down to the innermost error, and that error |
| RequestJson.UnmarshalField | internal/keysbuilder/fields.go:286-325 | Reading succeeds exactly on well-formed fields with their meaning; an error leads to a faulty node or an undecodable one |
| RequestJson.MeaningIff | internal/keysbuilder/fields.go:286-325 | What a field means, said of its members: each of the five types gives its own kind of description, with its collection and exactly the named fields; and every value that describes something is well-formed |
| RequestJson.UnmarshalFields | internal/keysbuilder/fields.go:338-356 | The same for a fields map, in any order of its names |
| RequestJson.UnmarshalRelation | internal/keysbuilder/fields.go:99-116 | The four relation types: reading succeeds exactly on well-formed relations, an error leads to a faulty node, and errors inside the fields are reported before those of the relation itself |
| RequestJson.UnmarshalTemplate | internal/keysbuilder/fields.go:249-269 | A template wraps the error of its values under the name `template` |
| RequestJson.UnmarshalBody | internal/keysbuilder/fields.go:45-71 | A body is read exactly when it has ids, a collection and well-formed fields, as the body with just these; errors inside the fields are reported first |
| RequestJson.BodyIff | internal/keysbuilder/fields.go:45-71 | A body is well-formed if and only if it describes one: a non-empty list of integers, a collection and described fields |
| RequestJson.FaultyIsNotWellFormed | internal/keysbuilder/fields.go:286-325 | An error that leads to a faulty node proves that the field is not well-formed |
| Delta.RunsOfDeltasEqualFull | internal/autoupdate/filter.go:16-38 | For every hash and every run of responses, deltas always give the same view as sending everything if and only if no response hides a change: a held value replaced by one with the same hash, a held value with the hash zero removed, or a value with the hash zero after a removal |
| Delta.DeltaEqualsFull | internal/autoupdate/filter.go:16-38 | The same for one response |
| Delta.HistoryTracksView | internal/autoupdate/filter.go:16-38 | For every hash the history records exactly the client's view, over every run |
| Delta.ZeroHashStays | internal/autoupdate/connection.go:92-97 | The client keeps a value with the hash zero after it was removed |
| Delta.ZeroHashNeverComes | internal/autoupdate/filter.go:21-35 | After a removal the client never gets a value with the hash zero |
| Delta.ZeroHashRuns | internal/autoupdate/filter.go:21-35 | A concrete hash and concrete runs in which this happens |
| Delta.RunsOfDeltasAreMinimal | internal/autoupdate/connection.go:92-101 | For every hash no response of a run resends what the client has or removes what it has not |
| Delta.Filter.Run | internal/autoupdate/filter.go:16-38 | In every iteration order the loop keeps the changed entries and remembers all hashes |
| Delta.Filter.DropThenRun | internal/autoupdate/connection.go:92-101 | Empty values for keys the client does not hold are dropped before the filter runs |
| Delta.ReceiveIs | internal/autoupdate/filter.go:21-26 | Nil and the empty slice remove a key from the client; any other value is what it then has |
| ClientConnection.Connection.Next | internal/autoupdate/connection.go:23-104 | `Next` with its tail calls: the response, id, keys and history for every series of answers from topic, provider and datastore |
| ClientConnection.Connection.First | internal/autoupdate/connection.go:24-48 | The first call reads all keys and replaces an id of zero |
| ClientConnection.Connection.Later | internal/autoupdate/connection.go:50-103 | A later call rebuilds the keys and reads exactly the new and the reported ones; errors leave the history |
| ClientConnection.Connect | internal/keysbuilder/keysbuilder.go:28-38 | A connection starts with the keys of a successful build and the id it was given |
| ClientConnection.KeysToReadAre | internal/autoupdate/connection.go:66-80 | A key is read if and only if it is new for the client or was reported as changed |
| ClientConnection.KeysDiff | internal/autoupdate/connection.go:106-121 | The keys of the new list that are not in the old one, in order |
| ClientConnection.RestrictedData | internal/autoupdate/autoupdate.go:91-106 | The restricter gets each value under its key, and its result or an error is returned |
| ClientConnection.ZipFrom | internal/autoupdate/autoupdate.go:97-100 | Each entry of the result is the value at some index of its key |
| ClientConnection.ZipLast | internal/autoupdate/autoupdate.go:97-100 | For a key that is listed more than once the last value counts |
| Restricting.Restrict | internal/restrict/restrict.go:40-82 | For every permission service: it fails if and only if the service fails or the checker of a visible key does; on success the key set is kept, values that are not granted become nil, and the others are what their checker selects |
| Restricting.RestrictsAsPermitted | internal/restrict/restrict.go:40-82 | If the answers are consistent, each value is restricted as permitted: nil if not allowed, relation lists reduced to exactly the allowed ids |
| Restricting.RestrictLeaves | internal/restrict/restrict.go:40-82 | With consistent answers, by the collection and field of each key: a hidden value becomes nil, a list with a checker keeps exactly the JSON entries of the visible objects, every other value stays |
| Restricting.CheckerIff | internal/restrict/restrict.go:60-73 | A key has a checker if and only if it is registered for the key's collection and field, or else a structured one matches these |
| Restricting.HiddenOrKept | internal/restrict/restrict.go:50-73 | A value that the answer leaves out or denies becomes nil; a granted one without a checker stays |
| Restricting.DecodesIff | internal/restrict/checker.go:46-51 | A checker reads null and lists of integers, or of strings, and fails on everything else |
| Restricting.CheckRelationList | internal/restrict/checker.go:46-76 | The result lists the id of each granted key once, and 0 for a key that no id stands for; it fails exactly on a value of the wrong form or an error of the service |
| Restricting.SelectedIffAsked | internal/restrict/checker.go:59-69 | The result lists exactly the allowed ids, each once, if and only if the answer grants only keys that were asked for |
| Restricting.CheckGenericList | internal/restrict/checker.go:82-110 | The result lists each granted name once; it fails exactly on a value of the wrong form or an error of the service |
| Restricting.ListingIffAsked | internal/restrict/checker.go:93-103 | The result lists exactly the allowed names if and only if the answer grants only names that were asked for |
| Restricting.RestrictTwice | internal/restrict/restrict.go:40-82 | Restricting restricted data changes nothing but the order of lists; each element stays as often as it was |
| Restricting.RestrictedOneWay | internal/restrict/restrict.go:40-82 | The permissions fix the restricted value up to the order of lists, with multiplicities |
| Restricting.ModelFieldOf | internal/restrict/restrict.go:92-95 | A key with three parts has the model field of its collection and field, whatever its id |
| Restricting.IdsDistinct | internal/restrict/checker.go:53-57 | Different ids give different permission keys, so a key leads back to one id |
| Restricting.ItoaIsDecimal | internal/keysbuilder/keysbuilder.go:124-130 | Ids are written as decimal numbers without leading zeros |
| GetMany.FlattenUndoesNest | internal/datastore/datastore.go:140-155 | Flattening a nested answer gives exactly the stored ones of the requested keys |
| GetMany.NestUndoesFlatten | internal/datastore/datastore.go:140-155 | Flattened data determines the nested data, for slash-free collections and ids |
| GetMany.Nest | cmd/datastore/main.go:79-97 | The nesting loop builds a nested map of exactly the stored requested keys |
| GetMany.Flatten | internal/datastore/datastore.go:146-153 | The flattening loops give each leaf under its joined key and nothing else |
| GetMany.FlatKeys | internal/datastore/datastore.go:146-153 | The flat keys are exactly collection, id and field of a leaf with slashes between, with the value of a leaf |
| GetMany.SplitJoin | internal/keysbuilder/keysbuilder.go:124-130 | Splitting undoes joining, so different slash-free triples give different keys |
| GetMany.JoinSplit | cmd/datastore/main.go:87-87 | Joining undoes splitting |

## Left out

- HTTP handlers, authentication, TLS, environment handling, the fakes and the performance tool: I/O plumbing.
- `structuredField.Check` and regular expressions: the checker reads the keys of a permission answer and ignores its booleans, so its meaning depends on a contract that is not visible. `Checks.structured` stands for the checker of the first structured field that matches.
- `ManyFromJSON` and `FromJSON`: they only collect bodies and rename errors.
- `keysbuilder.Simple`: its key list never changes, so it would only add easy members.
- JSON text: values are a datatype, bytes that are not JSON are one constructor. Case-insensitive and repeated object members are not modelled, and neither is the text of decoding errors.
- Topic pruning and time: `Receive` may fail, and nothing else is said about it.
- Messages that arrive while the feed still reads from `$`: the feed starts from a known cursor.
- Lock release: the early error returns of the read loop leave while holding the read lock; the model claims nothing about that.
- Restricting.Restrict: requires a key with three parts where a visible value is looked up, since a shorter one panics in the original.
- Session.ResponsesConverge: until a later call has refreshed the keys, it has the condition on the gap of a zero id, which is not necessary in every run, since a followed key may be published there with the value it had.
- RequestJson.Explain: when a field with the empty name and another one are both ill-formed, the order in which Go visits the map decides whether the path is lost.
- Request.ClearRequestIsExact: one way only; a request that is not clear may still lose nothing, and `Request.CompleteIffLossesHarmless` decides that for each build.
- Feed.FeedIsContiguous: the number of entries per reply is bounded by ten but otherwise free, which allows more than the server does.
