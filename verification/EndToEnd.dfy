/**
 * A client session inside a run of the whole service: its reads are `GetOrSet` calls of the
 * run, its topic ids are the publications of the run, its keys come from builds over its reads.
 */
module EndToEnd {
  import opened Values
  import opened StoreLog
  import opened Flights
  import opened Freshness
  import opened Calls
  import opened CallRuns
  import opened Request
  import opened ClientConnection
  import Delta

  // ---- Reads ----

  /**
   * A call that begins with step `begins` and has returned in state `ends`, and what the restricter
   * made of its values.
   */
  datatype Get = Get(call: nat, begins: nat, ends: nat, keys: seq<Key>, values: seq<Raw>, data: map<Key, Raw>)

  ghost predicate Happens(r: Run, g: Get) {
    && Begins(r, g.begins, g.call, g.keys) && g.begins < g.ends < |r.states|
    && g.call in r.states[g.ends].calls
    && r.states[g.ends].calls[g.call] == Returned(g.keys, g.values)
    && |g.values| == |g.keys|
  }

  /** A read of the run with its restricted data. */
  ghost predicate Gives(r: Run, restricts: Restriction, g: Get) {
    Happens(r, g) && RestrictedAs(restricts, Zip(g.keys, g.values), g.data)
  }

  function Final(r: Run): Core
    requires r.states != []
  {
    r.states[|r.states| - 1].core
  }

  /** `v` is the restricted value of `k` at some log position from `from` on. */
  ghost predicate Current(s: Store, restricts: Restriction, k: Key, v: Raw, from: nat) {
    exists q: nat :: from <= q <= |s.log| && restricts(k, s.At(k, q), v)
  }

  /** What a client reads is current as of every update that was applied when the read began. */
  lemma {:induction false} ReadIsCurrent(r: Run, restricts: Restriction, g: Get, from: nat, k: Key)
    requires HonestRun(r) && Gives(r, restricts, g) && k in g.keys
    requires from <= r.states[g.begins].core.applied
    ensures k in g.data && Current(Final(r).store, restricts, k, g.data[k], from)
  {
    var i := ZipFrom(g.keys, g.values, k);
    GetOrSetIsFresh(r, g.begins, g.ends, g.call, g.keys, i);
    RunGrows(r, g.ends, |r.states| - 1);
    var s := r.states[g.ends].core.store;
    FreshLater(s, Final(r).store, k, g.values[i], r.states[g.begins].core.applied, from);
    var q: nat :| from <= q <= |Final(r).store.log| && Final(r).store.At(k, q) == g.values[i];
    assert restricts(k, Final(r).store.At(k, q), g.data[k]);
  }

  // ---- Topic ids ----

  /** A topic id known in state `t` stands for updates that were applied in state `t`. */
  lemma {:induction false} KnownIdIsApplied(r: Run, t: nat, u: nat, tid: nat)
    requires HonestRun(r) && t <= u < |r.states| && tid <= |r.states[t].core.topic|
    ensures tid <= |Final(r).topic|
    ensures Position(Final(r).topic, tid) <= r.states[u].core.applied
  {
    RunInv(r, t);
    RunGrows(r, t, u);
    RunGrows(r, t, |r.states| - 1);
    assert Position(Final(r).topic, tid) == Position(r.states[t].core.topic, tid);
  }

  lemma {:induction false} ChangedStays(a: seq<Publication>, b: seq<Publication>, t: nat, u: nat)
    requires a <= b && t <= u <= |a|
    ensures Changed(a, t, u) == Changed(b, t, u)
  {
    if t < u {
      ChangedStays(a, b, t, u - 1);
    }
  }

  /** A value that is current at one topic id stays so until the topic reports its key. */
  lemma {:induction false} CurrentUntilReported(c: Core, restricts: Restriction, k: Key, v: Raw, t: nat, u: nat)
    requires TopicFollows(c) && t <= u <= |c.topic| && k !in Changed(c.topic, t, u)
    requires Current(c.store, restricts, k, v, Position(c.topic, t))
    ensures Current(c.store, restricts, k, v, Position(c.topic, u))
  {
    var p, p' := Position(c.topic, t), Position(c.topic, u);
    var q: nat :| p <= q <= |c.store.log| && restricts(k, c.store.At(k, q), v);
    UnreportedIsUntouched(c, t, u);
    assert Fresh(c.store, k, c.store.At(k, q), p);
    FreshOverSegment(c.store, k, c.store.At(k, q), p, p');
    var q': nat :| p' <= q' <= |c.store.log| && c.store.At(k, q') == c.store.At(k, q);
    assert restricts(k, c.store.At(k, q'), v);
  }

  // ---- Sessions ----

  /** The client after some rounds: its topic id, its keys, and the restricted data of its responses. */
  datatype Client = Client(tid: nat, keys: seq<Key>, datas: seq<map<Key, Raw>>)

  /**
   * One round of a session. In state `at` the topic id was taken; afterwards the builder made
   * its reads, and the keys that were new or reported were read.
   */
  datatype Round = Round(at: nat, builds: seq<Get>, levels: seq<Level>, keys: seq<Key>, read: Option<Get>)

  function LoadedBy(gs: seq<Get>): (datas: seq<map<Key, Raw>>)
    ensures |datas| == |gs|
  {
    seq(|gs|, i requires 0 <= i < |gs| => gs[i].data)
  }

  /** The build reads, after state `at`, every key that it has to follow. */
  ghost predicate BuildReads(r: Run, restricts: Restriction, at: nat, g: Get, l: Level) {
    Gives(r, restricts, g) && at <= g.begins && forall k :: k in l && !l[k].Leaf? ==> k in g.keys
  }

  /** The round's keys were built from reads after state `at`. */
  ghost predicate Builds(r: Run, cfg: Config, rd: Round) {
    && |rd.levels| == |rd.builds| + 1
    && (forall i :: 0 <= i < |rd.builds| ==> BuildReads(r, cfg.restricts, rd.at, rd.builds[i], rd.levels[i]))
    && IsBuild(cfg.bodies, LoadedBy(rd.builds), rd.levels)
    && (forall x :: x in rd.keys <==> Built(rd.levels, x))
  }

  /** The keys were read after state `at`. */
  ghost predicate ReadsKeys(r: Run, restricts: Restriction, at: nat, g: Get, keys: seq<Key>) {
    Gives(r, restricts, g) && at <= g.begins && g.keys == keys
  }

  /**
   * The first `Next` in state `connected`. The id was taken in state `rd.at`, before the keys
   * were built; if it was zero, the newest id is taken instead.
   */
  ghost predicate FirstRound(r: Run, cfg: Config, rd: Round, connected: nat, c: Client) {
    && rd.at <= connected < |r.states| && Builds(r, cfg, rd)
    && rd.read.Some? && ReadsKeys(r, cfg.restricts, connected, rd.read.value, rd.keys)
    && var id := |r.states[rd.at].core.topic|;
       c == Client(if id == 0 then |r.states[connected].core.topic| else id, rd.keys, [rd.read.value.data])
  }

  /** A later `Next`: `Receive` returned the newest id in state `rd.at`. */
  ghost predicate LaterRound(r: Run, cfg: Config, c: Client, rd: Round, c': Client) {
    && rd.at < |r.states| && Builds(r, cfg, rd)
    && var topic := r.states[rd.at].core.topic;
       && c.tid <= |topic|
       && var asked := KeysToRead(c.keys, rd.keys, Changed(topic, c.tid, |topic|));
          && c'.tid == |topic| && c'.keys == rd.keys
          && match rd.read
             case None => asked == [] && c'.datas == c.datas
             case Some(g) =>
               asked != [] && ReadsKeys(r, cfg.restricts, rd.at, g, asked) && c'.datas == c.datas + [g.data]
  }

  /** `clients[i]` is the client after round `i`. */
  ghost predicate IsSession(r: Run, cfg: Config, rounds: seq<Round>, connected: nat, clients: seq<Client>) {
    && |rounds| == |clients| > 0
    && FirstRound(r, cfg, rounds[0], connected, clients[0])
    && forall i :: 0 < i < |rounds| ==> Continues(r, cfg, rounds, clients, i)
  }

  ghost predicate Continues(r: Run, cfg: Config, rounds: seq<Round>, clients: seq<Client>, i: nat)
    requires 0 < i < |rounds| == |clients|
  {
    LaterRound(r, cfg, clients[i - 1], rounds[i], clients[i])
  }

  // ---- The client's view ----

  /** The client has this value; an empty value means that it has none. */
  ghost predicate Shows(view: Delta.View, k: Key, v: Raw) {
    if IsEmpty(v) then k !in view else k in view && view[k] == v
  }

  /** Each key that the client follows shows its restricted value at a position not before its topic id. */
  ghost predicate UpToDate(c: Core, restricts: Restriction, cl: Client) {
    && cl.tid <= |c.topic|
    && forall k :: k in cl.keys ==> ShowsCurrent(c, restricts, Delta.FullView(cl.datas), k, cl.tid)
  }

  ghost predicate ShowsCurrent(c: Core, restricts: Restriction, view: Delta.View, k: Key, tid: nat)
    requires tid <= |c.topic|
  {
    exists v :: Shows(view, k, v) && Current(c.store, restricts, k, v, Position(c.topic, tid))
  }

  lemma {:induction false} FullViewNext(datas: seq<map<Key, Raw>>, data: map<Key, Raw>, k: Key, v: Raw)
    ensures k in data ==> Shows(Delta.FullView(datas + [data]), k, data[k])
    ensures k !in data && Shows(Delta.FullView(datas), k, v) ==> Shows(Delta.FullView(datas + [data]), k, v)
  {
    assert (datas + [data])[..|datas|] == datas;
  }

  lemma {:induction false} DataKeys(r: Run, restricts: Restriction, g: Get, k: Key)
    requires Gives(r, restricts, g)
    ensures k in g.data <==> k in g.keys
  {
    ZipKeys(g.keys, g.values);
    assert k in g.keys <==> k in Elements(g.keys);
  }

  /** A key that a round reads shows its current value afterwards. */
  lemma {:induction false} ReadKeyShows(r: Run, restricts: Restriction, datas: seq<map<Key, Raw>>, g: Get, at: nat,
                                        tid: nat, k: Key)
    requires HonestRun(r) && Gives(r, restricts, g) && at <= g.begins && k in g.keys
    requires tid <= |r.states[at].core.topic|
    ensures tid <= |Final(r).topic|
    ensures ShowsCurrent(Final(r), restricts, Delta.FullView(datas + [g.data]), k, tid)
  {
    KnownIdIsApplied(r, at, g.begins, tid);
    ReadIsCurrent(r, restricts, g, Position(Final(r).topic, tid), k);
    FullViewNext(datas, g.data, k, Nil);
  }

  lemma {:induction false} FirstUpToDate(r: Run, cfg: Config, rd: Round, connected: nat, c: Client)
    requires HonestRun(r) && FirstRound(r, cfg, rd, connected, c)
    ensures UpToDate(Final(r), cfg.restricts, c)
  {
    RunGrows(r, rd.at, connected);
    var g := rd.read.value;
    KnownIdIsApplied(r, connected, g.begins, c.tid);
    assert [] + [g.data] == c.datas;
    forall k | k in c.keys ensures ShowsCurrent(Final(r), cfg.restricts, Delta.FullView(c.datas), k, c.tid) {
      ReadKeyShows(r, cfg.restricts, [], g, connected, c.tid, k);
    }
  }

  /** A value that the client shows stays current until the topic reports its key. */
  lemma {:induction false} UnreportedStaysCurrent(r: Run, restricts: Restriction, at: nat, tid: nat, k: Key, v: Raw)
    requires HonestRun(r) && at < |r.states| && tid <= |r.states[at].core.topic| && tid <= |Final(r).topic|
    requires k !in Changed(r.states[at].core.topic, tid, |r.states[at].core.topic|)
    requires Current(Final(r).store, restricts, k, v, Position(Final(r).topic, tid))
    ensures |r.states[at].core.topic| <= |Final(r).topic|
    ensures Current(Final(r).store, restricts, k, v, Position(Final(r).topic, |r.states[at].core.topic|))
  {
    var topic := r.states[at].core.topic;
    RunGrows(r, at, |r.states| - 1);
    RunInv(r, |r.states| - 1);
    ChangedStays(topic, Final(r).topic, tid, |topic|);
    CurrentUntilReported(Final(r), restricts, k, v, tid, |topic|);
  }

  /** A key that a later round does not read was neither new nor reported. */
  lemma {:induction false} UnreadIsKept(r: Run, cfg: Config, c: Client, rd: Round, c': Client, k: Key)
    requires LaterRound(r, cfg, c, rd, c') && k in c'.keys
    requires rd.read.Some? ==> k !in rd.read.value.keys
    ensures k in c.keys && k !in Changed(r.states[rd.at].core.topic, c.tid, |r.states[rd.at].core.topic|)
  {
    var topic := r.states[rd.at].core.topic;
    KeysToReadAre(c.keys, rd.keys, Changed(topic, c.tid, |topic|), k);
  }

  /** Data that does not hold a key leaves what is shown for it. */
  lemma {:induction false} UnreadStaysShown(r: Run, restricts: Restriction, datas: seq<map<Key, Raw>>, g: Get, k: Key,
                                            v: Raw)
    requires Gives(r, restricts, g) && k !in g.keys && Shows(Delta.FullView(datas), k, v)
    ensures Shows(Delta.FullView(datas + [g.data]), k, v)
  {
    DataKeys(r, restricts, g, k);
    FullViewNext(datas, g.data, k, v);
  }

  /** A key that a later round does not read still shows a current value. */
  lemma {:induction false} KeptKeyShows(r: Run, cfg: Config, c: Client, rd: Round, c': Client, k: Key)
    requires HonestRun(r) && UpToDate(Final(r), cfg.restricts, c) && LaterRound(r, cfg, c, rd, c')
    requires k in c'.keys
    requires rd.read.Some? ==> k !in rd.read.value.keys
    ensures c'.tid <= |Final(r).topic|
    ensures ShowsCurrent(Final(r), cfg.restricts, Delta.FullView(c'.datas), k, c'.tid)
  {
    UnreadIsKept(r, cfg, c, rd, c', k);
    assert ShowsCurrent(Final(r), cfg.restricts, Delta.FullView(c.datas), k, c.tid);
    var v :| Shows(Delta.FullView(c.datas), k, v)
      && Current(Final(r).store, cfg.restricts, k, v, Position(Final(r).topic, c.tid));
    UnreportedStaysCurrent(r, cfg.restricts, rd.at, c.tid, k, v);
    if rd.read.Some? {
      UnreadStaysShown(r, cfg.restricts, c.datas, rd.read.value, k, v);
    }
  }

  lemma {:induction false} LaterUpToDate(r: Run, cfg: Config, c: Client, rd: Round, c': Client)
    requires HonestRun(r) && UpToDate(Final(r), cfg.restricts, c) && LaterRound(r, cfg, c, rd, c')
    ensures UpToDate(Final(r), cfg.restricts, c')
  {
    KnownIdIsApplied(r, rd.at, rd.at, c'.tid);
    forall k | k in c'.keys ensures ShowsCurrent(Final(r), cfg.restricts, Delta.FullView(c'.datas), k, c'.tid) {
      if rd.read.Some? && k in rd.read.value.keys {
        ReadKeyShows(r, cfg.restricts, c.datas, rd.read.value, rd.at, c'.tid, k);
      } else {
        KeptKeyShows(r, cfg, c, rd, c', k);
      }
    }
  }

  lemma {:induction false} SessionStep(r: Run, cfg: Config, rounds: seq<Round>, connected: nat, clients: seq<Client>,
                                       i: nat)
    requires IsSession(r, cfg, rounds, connected, clients) && 0 < i < |clients|
    ensures LaterRound(r, cfg, clients[i - 1], rounds[i], clients[i])
  {
    assert Continues(r, cfg, rounds, clients, i);
  }

  lemma {:induction false} StepUpToDate(r: Run, cfg: Config, rounds: seq<Round>, connected: nat, clients: seq<Client>,
                                        i: nat)
    requires HonestRun(r) && IsSession(r, cfg, rounds, connected, clients) && i < |clients|
    requires i > 0 ==> UpToDate(Final(r), cfg.restricts, clients[i - 1])
    ensures UpToDate(Final(r), cfg.restricts, clients[i])
  {
    if i == 0 {
      FirstUpToDate(r, cfg, rounds[0], connected, clients[0]);
    } else {
      SessionStep(r, cfg, rounds, connected, clients, i);
      LaterUpToDate(r, cfg, clients[i - 1], rounds[i], clients[i]);
    }
  }

  lemma {:induction false} SessionUpToDate(r: Run, cfg: Config, rounds: seq<Round>, connected: nat,
                                           clients: seq<Client>, i: nat)
    requires HonestRun(r) && IsSession(r, cfg, rounds, connected, clients) && i < |clients|
    ensures UpToDate(Final(r), cfg.restricts, clients[i])
  {
    if i > 0 {
      SessionUpToDate(r, cfg, rounds, connected, clients, i - 1);
    }
    StepUpToDate(r, cfg, rounds, connected, clients, i);
  }

  // ---- Main results ----

  /**
   * The hash tells apart the values that the restricter gave for the versions of a key in this run,
   * and is not zero for them. Every 64-bit hash can do that, though none can tell apart all values.
   */
  ghost predicate TellsVersions(s: Store, cfg: Config) {
    forall k, v, w :: Current(s, cfg.restricts, k, v, 0) && Current(s, cfg.restricts, k, w, 0) ==>
      ToldApart(cfg.hash, v, w)
  }

  ghost predicate ToldApart(hash: Delta.Hash, v: Raw, w: Raw) {
    !IsEmpty(v) && !IsEmpty(w) ==> hash(v) != 0 && (hash(v) == hash(w) ==> v == w)
  }

  /** Everything that was read for the client is a version of its key. */
  ghost predicate OnlyVersions(s: Store, restricts: Restriction, datas: seq<map<Key, Raw>>) {
    forall i, k :: 0 <= i < |datas| && k in datas[i] ==> Current(s, restricts, k, datas[i][k], 0)
  }

  lemma {:induction false} ReadIsVersions(r: Run, restricts: Restriction, datas: seq<map<Key, Raw>>, g: Get)
    requires HonestRun(r) && Gives(r, restricts, g) && OnlyVersions(Final(r).store, restricts, datas)
    ensures OnlyVersions(Final(r).store, restricts, datas + [g.data])
  {
    var data := g.data;
    forall k | k in data ensures Current(Final(r).store, restricts, k, data[k], 0) {
      DataKeys(r, restricts, g, k);
      ReadIsCurrent(r, restricts, g, 0, k);
    }
  }

  lemma {:induction false} StepReadsVersions(r: Run, cfg: Config, rounds: seq<Round>, connected: nat,
                                             clients: seq<Client>, i: nat)
    requires HonestRun(r) && IsSession(r, cfg, rounds, connected, clients) && i < |clients|
    requires i > 0 ==> OnlyVersions(Final(r).store, cfg.restricts, clients[i - 1].datas)
    ensures OnlyVersions(Final(r).store, cfg.restricts, clients[i].datas)
  {
    if i == 0 {
      FirstReadsVersions(r, cfg, rounds[0], connected, clients[0]);
    } else {
      SessionStep(r, cfg, rounds, connected, clients, i);
      LaterReadsVersions(r, cfg, clients[i - 1], rounds[i], clients[i]);
    }
  }

  lemma {:induction false} SessionReadsVersions(r: Run, cfg: Config, rounds: seq<Round>, connected: nat,
                                                clients: seq<Client>, i: nat)
    requires HonestRun(r) && IsSession(r, cfg, rounds, connected, clients) && i < |clients|
    ensures OnlyVersions(Final(r).store, cfg.restricts, clients[i].datas)
  {
    if i > 0 {
      SessionReadsVersions(r, cfg, rounds, connected, clients, i - 1);
    }
    StepReadsVersions(r, cfg, rounds, connected, clients, i);
  }

  lemma {:induction false} FirstReadsVersions(r: Run, cfg: Config, rd: Round, connected: nat, c: Client)
    requires HonestRun(r) && FirstRound(r, cfg, rd, connected, c)
    ensures OnlyVersions(Final(r).store, cfg.restricts, c.datas)
  {
    ReadIsVersions(r, cfg.restricts, [], rd.read.value);
    assert [] + [rd.read.value.data] == c.datas;
  }

  lemma {:induction false} LaterReadsVersions(r: Run, cfg: Config, c: Client, rd: Round, c': Client)
    requires HonestRun(r) && LaterRound(r, cfg, c, rd, c') && OnlyVersions(Final(r).store, cfg.restricts, c.datas)
    ensures OnlyVersions(Final(r).store, cfg.restricts, c'.datas)
  {
    if rd.read.Some? {
      ReadIsVersions(r, cfg.restricts, c.datas, rd.read.value);
    }
  }

  /** What the client would have if all data were sent are versions, too. */
  lemma {:induction false} ViewIsVersions(s: Store, restricts: Restriction, datas: seq<map<Key, Raw>>, k: Key)
    requires OnlyVersions(s, restricts, datas) && k in Delta.FullView(datas)
    ensures !IsEmpty(Delta.FullView(datas)[k]) && Current(s, restricts, k, Delta.FullView(datas)[k], 0)
  {
    if datas != [] {
      var n := |datas| - 1;
      if k !in datas[n] {
        ViewIsVersions(s, restricts, datas[..n], k);
      }
    }
  }

  /** A hash that tells the versions of the run apart hides no change from the client. */
  lemma {:induction false} VersionsNeverHide(s: Store, cfg: Config, datas: seq<map<Key, Raw>>)
    requires TellsVersions(s, cfg) && OnlyVersions(s, cfg.restricts, datas)
    ensures Delta.NothingHidden(cfg.hash, datas)
  {
    if datas != [] {
      var n := |datas| - 1;
      VersionsNeverHide(s, cfg, datas[..n]);
      LastIsFaithful(s, cfg, datas);
    }
  }

  lemma {:induction false} LastIsFaithful(s: Store, cfg: Config, datas: seq<map<Key, Raw>>)
    requires TellsVersions(s, cfg) && OnlyVersions(s, cfg.restricts, datas) && datas != []
    ensures var init := datas[..|datas| - 1];
      Delta.Faithful(cfg.hash, Delta.HistoryAfter(cfg.hash, init), Delta.FullView(init), datas[|datas| - 1])
  {
    var n := |datas| - 1;
    var view, data := Delta.FullView(datas[..n]), datas[n];
    forall k ensures !Delta.Hides(cfg.hash, Delta.HistoryAfter(cfg.hash, datas[..n]), view, data, k) {
      if k in data {
        assert ToldApart(cfg.hash, data[k], data[k]);
        if k in view {
          ViewIsVersions(s, cfg.restricts, datas[..n], k);
          assert ToldApart(cfg.hash, view[k], data[k]) && ToldApart(cfg.hash, view[k], view[k]);
        }
      }
    }
  }

  /**
   * After every round of every session, each key the client follows shows, in the view that it
   * built up from the deltas, the restricted store value at a log position not older than its
   * topic id.
   */
  lemma {:induction false} ClientIsUpToDate(r: Run, cfg: Config, rounds: seq<Round>, connected: nat,
                                            clients: seq<Client>, i: nat, k: Key)
    requires HonestRun(r) && IsSession(r, cfg, rounds, connected, clients) && i < |clients|
    requires TellsVersions(Final(r).store, cfg) && k in clients[i].keys
    ensures clients[i].tid <= |Final(r).topic|
    ensures ShowsCurrent(Final(r), cfg.restricts, Delta.DeltaView(cfg.hash, clients[i].datas), k, clients[i].tid)
  {
    SessionUpToDate(r, cfg, rounds, connected, clients, i);
    SessionReadsVersions(r, cfg, rounds, connected, clients, i);
    VersionsNeverHide(Final(r).store, cfg, clients[i].datas);
    Delta.RunsOfDeltasEqualFull(cfg.hash, clients[i].datas);
  }

  /** Nothing is left to report: the client's topic id stands for the whole log. */
  ghost predicate CaughtUp(c: Core, cl: Client) {
    cl.tid <= |c.topic| && Position(c.topic, cl.tid) == |c.store.log|
  }

  lemma {:induction false} ShownAtEnd(c: Core, restricts: Restriction, view: Delta.View, k: Key, tid: nat)
    returns (v: Raw)
    requires tid <= |c.topic| && Position(c.topic, tid) == |c.store.log| && ShowsCurrent(c, restricts, view, k, tid)
    ensures Shows(view, k, v) && restricts(k, c.store.At(k, |c.store.log|), v)
  {
    v :| Shows(view, k, v) && Current(c.store, restricts, k, v, Position(c.topic, tid));
  }

  /** A client that has caught up shows what the restricter makes of the final store on its keys. */
  lemma {:induction false} CaughtUpShowsStore(r: Run, cfg: Config, rounds: seq<Round>, connected: nat,
                                              clients: seq<Client>, i: nat, k: Key)
    returns (v: Raw)
    requires HonestRun(r) && IsSession(r, cfg, rounds, connected, clients) && i < |clients|
    requires TellsVersions(Final(r).store, cfg) && k in clients[i].keys
    requires CaughtUp(Final(r), clients[i])
    ensures Shows(Delta.DeltaView(cfg.hash, clients[i].datas), k, v)
    ensures var s := Final(r).store; cfg.restricts(k, s.At(k, |s.log|), v)
  {
    ClientIsUpToDate(r, cfg, rounds, connected, clients, i, k);
    v := ShownAtEnd(Final(r), cfg.restricts, Delta.DeltaView(cfg.hash, clients[i].datas), k, clients[i].tid);
  }

  /** What the restricter makes of the store at the end of the run, up to the order of lists. */
  ghost predicate IsSnapshot(r: Run, cfg: Config, snap: Key -> Raw)
    requires r.states != []
  {
    var s := Final(r).store;
    forall k, v :: cfg.restricts(k, s.At(k, |s.log|), v) ==> SameUpToOrder(v, snap(k))
  }

  lemma {:induction false} LastIsSnapshot(r: Run, cfg: Config, snap: Key -> Raw, k: Key, v: Raw)
    requires r.states != [] && IsSnapshot(r, cfg, snap)
    requires Current(Final(r).store, cfg.restricts, k, v, |Final(r).store.log|)
    ensures SameUpToOrder(v, snap(k))
  {
  }

  /** The client shows this value, or the same list in another order. */
  ghost predicate ShowsUpToOrder(view: Delta.View, k: Key, v: Raw) {
    exists v' :: Shows(view, k, v') && SameUpToOrder(v', v)
  }

  lemma {:induction false} LateReadIsSnapshot(r: Run, cfg: Config, snap: Key -> Raw, at: nat, g: Get, l: Level)
    requires HonestRun(r) && at < |r.states| && BuildReads(r, cfg.restricts, at, g, l) && IsSnapshot(r, cfg, snap)
    requires r.states[at].core.applied == |Final(r).store.log|
    ensures Loaded(l, g.data, snap)
  {
    RunGrows(r, at, g.begins);
    forall k | k in l && !l[k].Leaf? ensures SameUpToOrder(Lookup(g.data, k), snap(k)) {
      ReadIsCurrent(r, cfg.restricts, g, |Final(r).store.log|, k);
      LastIsSnapshot(r, cfg, snap, k, g.data[k]);
    }
  }

  /** A build that reads after a state in which everything was applied reads the final store. */
  lemma {:induction false} LateBuildReadsSnapshot(r: Run, cfg: Config, snap: Key -> Raw, rd: Round)
    requires HonestRun(r) && rd.at < |r.states| && Builds(r, cfg, rd) && IsSnapshot(r, cfg, snap)
    requires r.states[rd.at].core.applied == |Final(r).store.log|
    ensures OverSnapshot(LoadedBy(rd.builds), rd.levels, snap)
  {
    var datas := LoadedBy(rd.builds);
    forall i | 0 <= i < |datas| ensures Loaded(rd.levels[i], datas[i], snap) {
      assert BuildReads(r, cfg.restricts, rd.at, rd.builds[i], rd.levels[i]);
      LateReadIsSnapshot(r, cfg, snap, rd.at, rd.builds[i], rd.levels[i]);
    }
  }

  /** No level of the round's build gave one key two descriptions. */
  ghost predicate ClearBuild(cfg: Config, rd: Round) {
    |rd.levels| == |rd.builds| + 1 && Unambiguous(cfg.bodies, LoadedBy(rd.builds), rd.levels)
  }

  /** The request is clear over the final store, or at least the build met no two descriptions of one key. */
  ghost predicate Clear(cfg: Config, snap: Key -> Raw, rd: Round) {
    ClearRequest(cfg.bodies, snap) || ClearBuild(cfg, rd)
  }

  /** Keys built from the final store are the request's meaning over it, unless a key has two descriptions. */
  lemma {:induction false} SnapshotKeysAreMeant(r: Run, cfg: Config, snap: Key -> Raw, rd: Round, k: Key)
    requires Builds(r, cfg, rd)
    requires OverSnapshot(LoadedBy(rd.builds), rd.levels, snap)
    ensures k in rd.keys ==> RequestDenotes(cfg.bodies, snap, k)
    ensures Clear(cfg, snap, rd) ==>
      (k in rd.keys <==> RequestDenotes(cfg.bodies, snap, k))
  {
    var datas := LoadedBy(rd.builds);
    if k in rd.keys {
      BuiltIsMeant(cfg.bodies, datas, rd.levels, snap, k);
    }
    if ClearRequest(cfg.bodies, snap) {
      ClearRequestIsExact(cfg.bodies, datas, rd.levels, snap, k);
    } else if ClearBuild(cfg, rd) {
      BuiltIffMeant(cfg.bodies, datas, rd.levels, snap, k);
    }
  }

  /**
   * Keys built when nothing was left to report are keys of the request's meaning over the final
   * store, and all of them if no level of the build was ambiguous.
   */
  lemma {:induction false} LateKeysAreMeant(r: Run, cfg: Config, snap: Key -> Raw, rd: Round, k: Key)
    requires HonestRun(r) && rd.at < |r.states| && Builds(r, cfg, rd) && IsSnapshot(r, cfg, snap)
    requires r.states[rd.at].core.applied == |Final(r).store.log|
    ensures k in rd.keys ==> RequestDenotes(cfg.bodies, snap, k)
    ensures Clear(cfg, snap, rd) ==>
      (k in rd.keys <==> RequestDenotes(cfg.bodies, snap, k))
  {
    LateBuildReadsSnapshot(r, cfg, snap, rd);
    SnapshotKeysAreMeant(r, cfg, snap, rd, k);
  }

  // ---- The gap of an id that was zero ----

  /** The build had to follow this key. */
  ghost predicate FollowedKey(rd: Round, i: nat, k: Key) {
    i < |rd.builds| && i < |rd.levels| && k in rd.levels[i] && !rd.levels[i][k].Leaf?
  }

  /**
   * The id was taken before the keys were built; or it was zero, the first `Next` took a newer
   * one, and nothing that was published in between changed a key that the build followed.
   */
  ghost predicate GapHarmless(r: Run, rd: Round, connected: nat)
    requires rd.at <= connected < |r.states|
  {
    var topic := r.states[connected].core.topic;
    |r.states[rd.at].core.topic| == 0 ==> forall i: nat, k :: FollowedKey(rd, i, k) ==> k !in Changed(topic, 0, |topic|)
  }

  lemma {:induction false} GapReadIsSnapshot(r: Run, cfg: Config, snap: Key -> Raw, rd: Round, connected: nat, i: nat,
                                             k: Key)
    requires HonestRun(r) && rd.at <= connected < |r.states| && Builds(r, cfg, rd) && FollowedKey(rd, i, k)
    requires IsSnapshot(r, cfg, snap)
    requires |r.states[connected].core.topic| <= |Final(r).topic|
    requires Position(Final(r).topic, |r.states[connected].core.topic|) == |Final(r).store.log|
    requires k !in Changed(r.states[connected].core.topic, 0, |r.states[connected].core.topic|)
    ensures SameUpToOrder(Lookup(LoadedBy(rd.builds)[i], k), snap(k))
  {
    var g := rd.builds[i];
    assert BuildReads(r, cfg.restricts, rd.at, g, rd.levels[i]);
    ReadIsCurrent(r, cfg.restricts, g, 0, k);
    UnreportedStaysCurrent(r, cfg.restricts, connected, 0, k, g.data[k]);
    LastIsSnapshot(r, cfg, snap, k, g.data[k]);
  }

  lemma {:induction false} GapBuildReadsSnapshot(r: Run, cfg: Config, snap: Key -> Raw, rd: Round, connected: nat)
    requires HonestRun(r) && rd.at <= connected < |r.states| && Builds(r, cfg, rd) && GapHarmless(r, rd, connected)
    requires IsSnapshot(r, cfg, snap)
    requires |r.states[rd.at].core.topic| == 0 && |r.states[connected].core.topic| <= |Final(r).topic|
    requires Position(Final(r).topic, |r.states[connected].core.topic|) == |Final(r).store.log|
    ensures OverSnapshot(LoadedBy(rd.builds), rd.levels, snap)
  {
    var datas := LoadedBy(rd.builds);
    forall i, k | 0 <= i < |datas| && k in rd.levels[i] && !rd.levels[i][k].Leaf?
      ensures SameUpToOrder(Lookup(datas[i], k), snap(k))
    {
      assert FollowedKey(rd, i, k);
      GapReadIsSnapshot(r, cfg, snap, rd, connected, i, k);
    }
  }

  /** The keys of the first round are meant if the gap between the build and the first `Next` is harmless. */
  lemma {:induction false} FirstKeysAreMeant(r: Run, cfg: Config, snap: Key -> Raw, rd: Round, connected: nat,
                                             c: Client, k: Key)
    requires HonestRun(r) && FirstRound(r, cfg, rd, connected, c) && CaughtUp(Final(r), c)
    requires GapHarmless(r, rd, connected) && IsSnapshot(r, cfg, snap)
    ensures k in rd.keys ==> RequestDenotes(cfg.bodies, snap, k)
    ensures Clear(cfg, snap, rd) ==>
      (k in rd.keys <==> RequestDenotes(cfg.bodies, snap, k))
  {
    if |r.states[rd.at].core.topic| == 0 {
      GapBuildReadsSnapshot(r, cfg, snap, rd, connected);
      SnapshotKeysAreMeant(r, cfg, snap, rd, k);
    } else {
      KnownIdIsApplied(r, rd.at, rd.at, c.tid);
      AppliedIsWritten(r, rd.at);
      LateKeysAreMeant(r, cfg, snap, rd, k);
    }
  }

  lemma {:induction false} LaterKeysAreMeant(r: Run, cfg: Config, snap: Key -> Raw, c: Client, rd: Round, c': Client,
                                             k: Key)
    requires HonestRun(r) && LaterRound(r, cfg, c, rd, c') && CaughtUp(Final(r), c') && IsSnapshot(r, cfg, snap)
    ensures k in rd.keys ==> RequestDenotes(cfg.bodies, snap, k)
    ensures Clear(cfg, snap, rd) ==>
      (k in rd.keys <==> RequestDenotes(cfg.bodies, snap, k))
  {
    KnownIdIsApplied(r, rd.at, rd.at, c'.tid);
    AppliedIsWritten(r, rd.at);
    LateKeysAreMeant(r, cfg, snap, rd, k);
  }

  /**
   * End-to-end convergence: when the log has ended and the client has received its last id, its
   * keys are the request's meaning over the store and its view on them is the restricted store.
   * Only right after the first `Next` does this need a harmless gap.
   */
  lemma {:induction false} Convergence(r: Run, cfg: Config, snap: Key -> Raw, rounds: seq<Round>, connected: nat,
                                       clients: seq<Client>, i: nat, k: Key)
    requires HonestRun(r) && IsSession(r, cfg, rounds, connected, clients) && i < |clients|
    requires TellsVersions(Final(r).store, cfg) && CaughtUp(Final(r), clients[i]) && IsSnapshot(r, cfg, snap)
    requires i == 0 ==> GapHarmless(r, rounds[0], connected)
    ensures k in clients[i].keys ==> RequestDenotes(cfg.bodies, snap, k)
    ensures k in clients[i].keys ==> ShowsUpToOrder(Delta.DeltaView(cfg.hash, clients[i].datas), k, snap(k))
    ensures Clear(cfg, snap, rounds[i]) ==>
      (k in clients[i].keys <==> RequestDenotes(cfg.bodies, snap, k))
  {
    if i == 0 {
      FirstKeysAreMeant(r, cfg, snap, rounds[0], connected, clients[0], k);
    } else {
      assert Continues(r, cfg, rounds, clients, i);
      LaterKeysAreMeant(r, cfg, snap, clients[i - 1], rounds[i], clients[i], k);
    }
    if k in clients[i].keys {
      var v := CaughtUpShowsStore(r, cfg, rounds, connected, clients, i, k);
    }
  }

  lemma {:induction false} AppliedIsWritten(r: Run, t: nat)
    requires HonestRun(r) && t < |r.states|
    ensures r.states[t].core.applied <= |Final(r).store.log|
  {
    RunInv(r, t);
    RunGrows(r, t, |r.states| - 1);
  }
}
