/**
 * Why convergence needs keys that are not older than the client's topic id. The handler takes
 * the id before it builds the keys, but when that id is zero the first `Next` takes a newer
 * one. An update between the two is then never reported to the client.
 */
module ZeroId {
  import opened Values
  import opened StoreLog
  import opened CacheSpec
  import opened Flights
  import opened Freshness
  import opened Calls
  import opened CallRuns
  import opened Fields
  import opened Request
  import opened ClientConnection
  import opened EndToEnd
  import Delta

  const R: Key := "a/1/r"
  const LINK: Raw := Doc(Str("b/1"))
  const CHANGE: Message := map[R := LINK]

  /** Ask for `a/1/r`, and for `x` of whatever it points to. */
  const BODIES: seq<Body> := [Body([1], "a", map["r" := Generic(map["x" := Leaf])])]

  /** The shared part, without the fields that stay as they are. */
  ghost predicate CoreIs(c: Core, cache: CacheState, flights: map<nat, Flight>, log: seq<Message>) {
    c.cache == cache && c.flights == flights && c.store == Store(map[], log)
  }

  // ---- The builder reads the missing key ----

  lemma {:induction false} Ask(s: System)
    requires s == Init(map[])
    ensures var s' := Do(s, Begin(0, [R]));
      && CoreIs(s'.core, CacheState(map[], map[R := 0], {}, 1), map[0 := Flight(0, [R], Outstanding)], [])
      && s'.calls == map[0 := Running([Frame([R], [], Fetching(0))])]
      && s'.core.applied == 0 && s'.core.unpublished == None && s'.core.topic == []
  {
    OneMissing(EMPTY, R);
    assert (map[])[R := 0] == map[R := 0];
  }

  lemma {:induction false} Answer(s: System)
    requires CoreIs(s.core, CacheState(map[], map[R := 0], {}, 1), map[0 := Flight(0, [R], Outstanding)], [])
    ensures Enabled(s, FetchReply(0, Answered(map[]))) && Honest(s, FetchReply(0, Answered(map[])))
    ensures var s' := Do(s, FetchReply(0, Answered(map[])));
      && CoreIs(s'.core, CacheState(map[], map[R := 0], {}, 1), map[0 := Flight(0, [R], Answered(map[]))], [])
      && s'.calls == s.calls && s'.core.topic == s.core.topic
      && s'.core.applied == s.core.applied && s'.core.unpublished == s.core.unpublished
  {
    assert s.core.store.At(R, 0) == Nil;
  }

  lemma {:induction false} Install(s: System)
    requires CoreIs(s.core, CacheState(map[], map[R := 0], {}, 1), map[0 := Flight(0, [R], Answered(map[]))], [])
    requires s.calls == map[0 := Running([Frame([R], [], Fetching(0))])]
    ensures Enabled(s, FetchFinish(0))
    ensures var s' := Do(s, FetchFinish(0));
      && CoreIs(s'.core, CacheState(map[R := Nil], map[], {0}, 1), map[], [])
      && s'.calls == map[0 := Running([Frame([R], [], Reading)])]
      && s'.core.topic == s.core.topic && s'.core.applied == s.core.applied && s'.core.unpublished == s.core.unpublished
  {
    assert Installed(s.core.cache, [R], map[]) == map[R := Nil];
    assert Chans(map[R := 0], {R}) == {0};
    assert Assign(s.core.cache, map[R := Nil]) == CacheState(map[R := Nil], map[], {0}, 1);
    assert s.core.flights - {0} == map[];
    assert SetTop(s.calls[0], Top(s.calls[0]).(phase := Reading)) == Running([Frame([R], [], Reading)]);
  }

  /** Reading one cached key and returning it. */
  lemma {:induction false} ReadOneKey(s: System, c: nat)
    requires c in s.calls && s.calls[c] == Running([Frame([R], [], Reading)])
    requires R in s.core.cache.data && R !in s.core.cache.pending
    ensures Enabled(s, Read(c)) && Do(s, Read(c)).core == s.core
    ensures Enabled(Do(s, Read(c)), Return(c)) && Do(Do(s, Read(c)), Return(c)).core == s.core
    ensures Do(Do(s, Read(c)), Return(c)).calls == s.calls[c := Returned([R], [s.core.cache.data[R]])]
  {
    var v := s.core.cache.data[R];
    assert [] + [v] == [v];
    assert Do(s, Read(c)).calls[c] == Running([Frame([R], [v], Reading)]);
  }

  // ---- The key changes and the change is published ----

  lemma {:induction false} Change(s: System)
    requires CoreIs(s.core, CacheState(map[R := Nil], map[], {0}, 1), map[], [])
    requires s.core.applied == 0 && s.core.unpublished == None && s.core.topic == []
    ensures var s1 := Do(s, StoreWrite(CHANGE));
      && Enabled(s1, FeedReceive(1))
      && var s2 := Do(s1, FeedReceive(1));
         && Enabled(s2, FeedPublish)
         && var s3 := Do(s2, FeedPublish);
            && s3.calls == s.calls
            && CoreIs(s3.core, CacheState(map[R := LINK], map[], {0}, 1), map[], [CHANGE])
            && s3.core.topic == [Publication({R}, 1)]
  {
    var s1 := Do(s, StoreWrite(CHANGE));
    assert s1.core.store.log[0..1] == [CHANGE] && [CHANGE][..0] == [];
    assert Merge([CHANGE]) == CHANGE;
    assert Restrict(CHANGE, {R}) == CHANGE;
    assert CHANGE.Keys == {R};
    assert SetIfExist(s1.core.cache, CHANGE) == CacheState(map[R := LINK], map[], {0}, 1);
  }

  // ---- The client reads its stale keys ----

  lemma {:induction false} AskAgain(s: System)
    requires CoreIs(s.core, CacheState(map[R := LINK], map[], {0}, 1), map[], [CHANGE])
    requires s.calls.Keys == {0}
    ensures var s' := Do(s, Begin(1, [R]));
      && s'.core == s.core && s'.calls == s.calls[1 := Running([Frame([R], [], Reading)])]
  {
    assert [R][..|[R]| - 1] == [];
    assert NotExistToPending(s.core.cache, []) == (s.core.cache, []);
    assert NotExistToPending(s.core.cache, [R]) == (s.core.cache, []);
  }

  // ---- The run ----

  lemma {:induction false} BuilderFetches() returns (r: Run)
    ensures HonestRun(r) && |r.steps| == 3 && r.steps[0] == Begin(0, [R]) && r.states[0].core.topic == []
    ensures Last(r).calls == map[0 := Running([Frame([R], [], Reading)])]
    ensures CoreIs(Last(r).core, CacheState(map[R := Nil], map[], {0}, 1), map[], [])
    ensures Last(r).core.applied == 0 && Last(r).core.unpublished == None && Last(r).core.topic == []
  {
    r := Run([Init(map[])], []);
    Ask(Last(r));
    r := ExtendRun(r, Begin(0, [R]));
    Answer(Last(r));
    r := ExtendRun(r, FetchReply(0, Answered(map[])));
    Install(Last(r));
    r := ExtendRun(r, FetchFinish(0));
  }

  lemma {:induction false} BuilderReads() returns (r: Run)
    ensures HonestRun(r) && |r.steps| == 5 && r.steps[0] == Begin(0, [R]) && r.states[0].core.topic == []
    ensures Last(r).calls == map[0 := Returned([R], [Nil])]
    ensures CoreIs(Last(r).core, CacheState(map[R := Nil], map[], {0}, 1), map[], [])
    ensures Last(r).core.applied == 0 && Last(r).core.unpublished == None && Last(r).core.topic == []
  {
    r := BuilderFetches();
    ReadOneKey(Last(r), 0);
    r := ExtendRun(r, Read(0));
    r := ExtendRun(r, Return(0));
  }

  lemma {:induction false} ChangeArrives(r: Run) returns (r': Run)
    requires HonestRun(r)
    requires CoreIs(Last(r).core, CacheState(map[R := Nil], map[], {0}, 1), map[], [])
    requires Last(r).core.applied == 0 && Last(r).core.unpublished == None && Last(r).core.topic == []
    ensures HonestRun(r') && r.states <= r'.states && r.steps <= r'.steps && |r'.steps| == |r.steps| + 3
    ensures Last(r').calls == Last(r).calls && Last(r').core.topic == [Publication({R}, 1)]
    ensures CoreIs(Last(r').core, CacheState(map[R := LINK], map[], {0}, 1), map[], [CHANGE])
  {
    Change(Last(r));
    r' := ExtendRun(r, StoreWrite(CHANGE));
    r' := ExtendRun(r', FeedReceive(1));
    r' := ExtendRun(r', FeedPublish);
  }

  lemma {:induction false} ClientReads(r: Run) returns (r': Run)
    requires HonestRun(r) && Last(r).calls.Keys == {0}
    requires CoreIs(Last(r).core, CacheState(map[R := LINK], map[], {0}, 1), map[], [CHANGE])
    ensures HonestRun(r') && r.states <= r'.states && r.steps <= r'.steps && |r'.steps| == |r.steps| + 3
    ensures r'.steps[|r.steps|] == Begin(1, [R]) && Last(r').core == Last(r).core
    ensures 1 in Last(r').calls && Last(r').calls[1] == Returned([R], [LINK])
  {
    AskAgain(Last(r));
    r' := ExtendRun(r, Begin(1, [R]));
    ReadOneKey(Last(r'), 1);
    r' := ExtendRun(r', Read(1));
    r' := ExtendRun(r', Return(1));
  }

  // ---- The request ----

  /** A restricter that hides nothing. */
  ghost function Identity(): Restriction {
    (k, v, v') => v' == v
  }

  lemma {:induction false} Names()
    ensures CollectionIds(BODIES[0]) == ["a/1"]
    ensures GenericKey("a/1", "r") == R && GenericKey("b/1", "x") == "b/1/x"
  {
    assert Digits(1) == ['1'];
    assert CollectionId("a", 1) == "a" + "/" + "1" == "a/1";
  }

  lemma {:induction false} Requested(d: Desc)
    requires d == Generic(map["x" := Leaf])
    ensures Requests(BODIES, R, d) && Wins(BODIES, R, d)
    ensures forall k, e :: Requests(BODIES, k, e) ==> k == R && e == d
  {
    Names();
    assert "a/1" in ["a/1"] && "r" in BODIES[0].fields;
    assert BodyRequests(BODIES[0], R, d);
    assert WinsAt(BODIES, 0, R, d);
  }

  /** The build over the old data: the key has no value, so nothing is followed. */
  lemma {:induction false} StaleBuild(d: Desc, data: map<Key, Raw>)
    requires d == Generic(map["x" := Leaf]) && data == map[R := Nil]
    ensures IsBuild(BODIES, [data], [map[R := d], map[]])
  {
    Requested(d);
    var l: Level := map[R := d];
    assert l[R] == d && Open(l);
    assert IsNext(l, data, map[]);
    assert IsRound([data], [l, map[]], 0);
  }

  /** Over the new data the request means one more key. */
  lemma {:induction false} MeansMore(d: Desc, snap: Key -> Raw)
    requires d == Generic(map["x" := Leaf]) && snap(R) == LINK
    ensures RequestDenotes(BODIES, snap, "b/1/x")
  {
    Names();
    Requested(d);
    assert ReadValue(d, LINK).value == ["b/1"] && "b/1" in ["b/1"] && "x" in d.fields;
    assert Follows(d, R, snap(R), "b/1/x", Leaf);
    DenotesBelow(d, R, snap, "b/1/x", Leaf, "b/1/x");
  }

  // ---- The session ----

  lemma {:induction false} FirstIsStale(r: Run, cfg: Config, g: Get, h: Get, d: Desc) returns (rd: Round, c: Client)
    requires cfg.restricts == Identity() && cfg.bodies == BODIES && d == Generic(map["x" := Leaf])
    requires |r.states| > 8 && |r.states[0].core.topic| == 0 && |r.states[8].core.topic| == 1
    requires Happens(r, g) && g.keys == [R] && g.values == [Nil] && g.data == map[R := Nil]
    requires Happens(r, h) && 8 <= h.begins && h.keys == [R] && h.values == [LINK] && h.data == map[R := LINK]
    ensures FirstRound(r, cfg, rd, 8, c) && c.tid == 1 && c.keys == [R]
    ensures rd.at == 0 && FollowedKey(rd, 0, R)
  {
    var levels: seq<Level> := [map[R := d], map[]];
    rd := Round(0, [g], levels, [R], Some(h));
    c := Client(1, [R], [h.data]);
    assert [R][..0] == [] && [Nil][..0] == [];
    assert Zip([], []) == map[];
    assert [LINK][..0] == [];
    assert Zip([R], [Nil]) == map[R := Nil] && Zip([R], [LINK]) == map[R := LINK];
    assert LoadedBy([g]) == [map[R := Nil]];
    StaleBuild(d, map[R := Nil]);
    assert BuildReads(r, cfg.restricts, 0, g, levels[0]);
    forall x ensures x in [R] <==> Built(levels, x) {
      assert R in levels[0];
    }
  }

  /** The whole run: the builder reads in steps 0 to 4, the client in steps 8 to 10. */
  lemma {:induction false} TheRun() returns (r: Run)
    ensures HonestRun(r) && |r.states| == 12
    ensures r.states[0].core.topic == [] && r.states[8].core.topic == [Publication({R}, 1)]
    ensures Happens(r, Get(0, 0, 5, [R], [Nil], map[R := Nil]))
    ensures Happens(r, Get(1, 8, 11, [R], [LINK], map[R := LINK]))
    ensures Final(r).topic == [Publication({R}, 1)] && Final(r).store == Store(map[], [CHANGE])
  {
    var r0 := BuilderReads();
    var r1 := ChangeArrives(r0);
    r := ClientReads(r1);
    assert r.states[0] == r0.states[0] && r.states[5] == Last(r0) && r.states[8] == Last(r1);
    assert r.steps[0] == r0.steps[0];
  }

  lemma {:induction false} FinalStore(r: Run, cfg: Config, snap: Key -> Raw)
    requires r.states != [] && Final(r).store == Store(map[], [CHANGE]) && cfg.restricts == Identity()
    requires snap == (k => Store(map[], [CHANGE]).At(k, 1))
    ensures IsSnapshot(r, cfg, snap) && snap(R) == LINK
  {
  }

  lemma {:induction false} CatchesUp(r: Run, rd: Round, c: Client)
    requires |r.states| > 8 && r.states[0].core.topic == [] && r.states[8].core.topic == [Publication({R}, 1)]
    requires Final(r).topic == [Publication({R}, 1)] && Final(r).store == Store(map[], [CHANGE])
    requires c.tid == 1 && rd.at == 0 && FollowedKey(rd, 0, R)
    ensures CaughtUp(Final(r), c) && !GapHarmless(r, rd, 8)
  {
    assert R in Changed(r.states[8].core.topic, 0, 1);
  }

  lemma {:induction false} StaleSession(hash: Delta.Hash) returns (r: Run, cfg: Config, rd: Round, c: Client)
    ensures HonestRun(r) && FirstRound(r, cfg, rd, 8, c) && CaughtUp(Final(r), c) && !GapHarmless(r, rd, 8)
    ensures cfg == Config(Identity(), hash, BODIES) && c.keys == [R] && Final(r).store == Store(map[], [CHANGE])
  {
    r := TheRun();
    cfg := Config(Identity(), hash, BODIES);
    var g, h := Get(0, 0, 5, [R], [Nil], map[R := Nil]), Get(1, 8, 11, [R], [LINK], map[R := LINK]);
    rd, c := FirstIsStale(r, cfg, g, h, Generic(map["x" := Leaf]));
    CatchesUp(r, rd, c);
  }

  /**
   * An honest run and a session in it that has caught up, and still misses a key of its request:
   * a key that the build followed was published in the gap.
   */
  lemma {:induction false} ZeroIdMissesUpdate(hash: Delta.Hash)
    returns (r: Run, cfg: Config, snap: Key -> Raw, rd: Round, c: Client)
    ensures HonestRun(r) && FirstRound(r, cfg, rd, 8, c) && IsSession(r, cfg, [rd], 8, [c])
    ensures CaughtUp(Final(r), c) && "b/1/x" !in c.keys && !GapHarmless(r, rd, 8)
    ensures IsSnapshot(r, cfg, snap) && RequestDenotes(cfg.bodies, snap, "b/1/x")
  {
    r, cfg, rd, c := StaleSession(hash);
    snap := k => Store(map[], [CHANGE]).At(k, 1);
    FinalStore(r, cfg, snap);
    MeansMore(Generic(map["x" := Leaf]), snap);
  }
}
