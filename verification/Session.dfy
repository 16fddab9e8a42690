/**
 * The code of a connection inside a run of the whole service: every series of `Next` calls is
 * a session of the run, so what is proved of sessions holds of the responses that are sent.
 */
module Session {
  import opened Values
  import opened Flights
  import opened Freshness
  import opened CallRuns
  import opened Request
  import opened KeysBuilder
  import opened ClientConnection
  import opened EndToEnd
  import Delta

  // ---- Worlds that are part of a run ----

  /** The data is what a read of these keys, begun after state `at`, returned. */
  ghost predicate ReadAs(r: Run, cfg: Config, at: nat, keys: seq<Key>, data: map<Key, Raw>) {
    exists g :: ReadsKeys(r, cfg.restricts, at, g, keys) && g.data == data
  }

  ghost predicate ProvidedBy(r: Run, cfg: Config, at: nat, provider: Provider) {
    forall i: nat, keys :: provider(i, keys).Some? ==> ReadAs(r, cfg, at, keys, provider(i, keys).value)
  }

  /** What `RestrictedData` gives in this world comes from a read of the run. */
  ghost predicate GotBy(r: Run, cfg: Config, at: nat, w: World) {
    forall keys: seq<Key> :: Got(w, keys).Some? ==> ReadAs(r, cfg, at, keys, Got(w, keys).value)
  }

  ghost function Got(w: World, keys: seq<Key>): Option<map<Key, Raw>> {
    if w.get(keys).Some? && |w.get(keys).value| != |keys| then None else ReadData(w.restrict, keys, w.get(keys))
  }

  /** The world of a first call in state `at`. */
  ghost predicate FirstWorld(r: Run, cfg: Config, at: nat, w: World) {
    at < |r.states| && w.lastId == |r.states[at].core.topic| && GotBy(r, cfg, at, w)
  }

  /** The world of a later call: `Receive` returned in state `at`, and all reads came after it. */
  ghost predicate LaterWorld(r: Run, cfg: Config, tid: nat, at: nat, w: World) {
    && at < |r.states| && ProvidedBy(r, cfg, at, w.provider) && GotBy(r, cfg, at, w)
    && w.receivedId == |r.states[at].core.topic| && tid <= w.receivedId
    && (w.changed.Some? ==> Elements(w.changed.value) == Changed(r.states[at].core.topic, tid, w.receivedId))
  }

  ghost predicate LaterWorlds(r: Run, cfg: Config, tid: nat, ats: seq<nat>, ws: seq<World>)
    decreases |ws|
  {
    && |ats| == |ws|
    && (ws != [] ==> LaterWorld(r, cfg, tid, ats[0], ws[0]) && LaterWorlds(r, cfg, ws[0].receivedId, ats[1..], ws[1..]))
  }

  // ---- Builds ----

  /** The read got this data for these keys. */
  ghost predicate Gave(r: Run, cfg: Config, at: nat, g: Get, keys: seq<Key>, data: map<Key, Raw>) {
    ReadsKeys(r, cfg.restricts, at, g, keys) && g.data == data
  }

  lemma {:induction false} AnswerRead(r: Run, cfg: Config, at: nat, provider: Provider, t: Trace, i: nat)
    returns (g: Get)
    requires AskedInOrder(provider, t) && ProvidedBy(r, cfg, at, provider) && i < |t.datas|
    ensures Gave(r, cfg, at, g, t.asked[i], t.datas[i])
  {
    assert ReadAs(r, cfg, at, t.asked[i], t.datas[i]);
    g :| ReadsKeys(r, cfg.restricts, at, g, t.asked[i]) && g.data == t.datas[i];
  }

  /** The reads behind the first `n` answers of the provider. */
  lemma {:induction false} CollectReads(r: Run, cfg: Config, at: nat, provider: Provider, t: Trace, n: nat)
    returns (gs: seq<Get>)
    requires AskedInOrder(provider, t) && ProvidedBy(r, cfg, at, provider) && n <= |t.datas|
    ensures |gs| == n
    ensures forall i :: 0 <= i < n ==> Gave(r, cfg, at, gs[i], t.asked[i], t.datas[i])
  {
    if n == 0 {
      gs := [];
    } else {
      gs := CollectReads(r, cfg, at, provider, t, n - 1);
      var g := AnswerRead(r, cfg, at, provider, t, n - 1);
      gs := gs + [g];
    }
  }

  /** A successful `Update` whose provider reads from the run is a build of the run. */
  lemma {:induction false} UpdateBuilds(r: Run, cfg: Config, at: nat, provider: Provider, t: Trace, keys: seq<Key>,
                                        read: Option<Get>)
    returns (rd: Round)
    requires EndsWith(cfg.bodies, provider, Updated, t) && ProvidedBy(r, cfg, at, provider)
    requires forall x :: x in keys <==> Built(t.levels, x)
    ensures rd == Round(at, rd.builds, t.levels, keys, read) && Builds(r, cfg, rd)
  {
    var gs := CollectReads(r, cfg, at, provider, t, |t.datas|);
    rd := Round(at, gs, t.levels, keys, read);
    assert LoadedBy(gs) == t.datas;
    forall i | 0 <= i < |gs| ensures BuildReads(r, cfg.restricts, at, gs[i], t.levels[i]) {
      assert AsksFor(t.asked[i], t.levels[i]);
    }
  }

  // ---- One `Next` ----

  /** The connection has the client's id and keys, and its filter knows what was sent. */
  ghost predicate Represents(cfg: Config, s: Conn, c: Client) {
    s == Conn(c.tid, c.keys, Some(Delta.HistoryAfter(cfg.hash, c.datas)))
  }

  /** What the client does with a response. */
  function Apply(view: Delta.View, r: Response): Delta.View {
    if r.Data? then Delta.Receive(view, r.data) else view
  }

  ghost predicate Shown(cfg: Config, before: Client, r: Response, after: Client) {
    Delta.DeltaView(cfg.hash, after.datas) == Apply(Delta.DeltaView(cfg.hash, before.datas), r)
  }

  lemma {:induction false} SentIsNext(cfg: Config, datas: seq<map<Key, Raw>>, data: map<Key, Raw>)
    ensures Delta.HistoryAfter(cfg.hash, datas + [data])
         == Delta.After(cfg.hash, Delta.HistoryAfter(cfg.hash, datas), data)
    ensures Delta.DeltaView(cfg.hash, datas + [data])
         == Delta.Receive(Delta.DeltaView(cfg.hash, datas),
                          Delta.Sent(cfg.hash, Delta.HistoryAfter(cfg.hash, datas), data))
  {
    assert (datas + [data])[..|datas|] == datas;
  }

  /** A response comes from a read of the run. */
  lemma {:induction false} SendsRead(r: Run, cfg: Config, at: nat, w: World, keys: seq<Key>, datas: seq<map<Key, Raw>>,
                                     resp: Response, h': Option<Delta.History>) returns (g: Get)
    requires GotBy(r, cfg, at, w) && Sends(cfg, Delta.HistoryAfter(cfg.hash, datas), w, keys, resp, h') && resp != Error
    ensures ReadsKeys(r, cfg.restricts, at, g, keys) && h' == Some(Delta.HistoryAfter(cfg.hash, datas + [g.data]))
    ensures Delta.DeltaView(cfg.hash, datas + [g.data]) == Apply(Delta.DeltaView(cfg.hash, datas), resp)
  {
    var data := Got(w, keys).value;
    assert ReadAs(r, cfg, at, keys, data);
    g :| ReadsKeys(r, cfg.restricts, at, g, keys) && g.data == data;
    SentIsNext(cfg, datas, g.data);
  }

  lemma {:induction false} FirstIsRound(r: Run, cfg: Config, rd: Round, connected: nat, s: Conn, w: World,
                                        resp: Response, s': Conn)
    returns (rd': Round, c: Client)
    requires rd.at <= connected && Builds(r, cfg, rd) && FirstWorld(r, cfg, connected, w)
    requires s == Conn(|r.states[rd.at].core.topic|, rd.keys, None)
    requires FirstNext(cfg, s, w, resp, s') && resp != Error
    ensures rd' == rd.(read := rd'.read) && FirstRound(r, cfg, rd', connected, c) && Represents(cfg, s', c)
    ensures Delta.DeltaView(cfg.hash, c.datas) == Apply(map[], resp)
  {
    var g := SendsRead(r, cfg, connected, w, rd.keys, [], resp, s'.history);
    rd' := rd.(read := Some(g));
    c := Client(s'.tid, rd.keys, [] + [g.data]);
    assert Builds(r, cfg, rd');
  }

  lemma {:induction false} LaterIsRound(r: Run, cfg: Config, at: nat, c: Client, s: Conn, w: World, resp: Response,
                                        s': Conn)
    returns (rd: Round, c': Client)
    requires Represents(cfg, s, c) && LaterWorld(r, cfg, c.tid, at, w)
    requires LaterNext(cfg, s, w, resp, s') && resp != Error
    ensures LaterRound(r, cfg, c, rd, c') && Represents(cfg, s', c') && Shown(cfg, c, resp, c')
  {
    var outcome, t :| Refreshes(cfg, s, w, outcome, t, resp, s');
    var keys := KeysToRead(s.keys, s'.keys, Elements(w.changed.value));
    if keys == [] {
      rd := UpdateBuilds(r, cfg, at, w.provider, t, s'.keys, None);
      c' := Client(s'.tid, s'.keys, c.datas);
    } else {
      var g := SendsRead(r, cfg, at, w, keys, c.datas, resp, s'.history);
      rd := UpdateBuilds(r, cfg, at, w.provider, t, s'.keys, Some(g));
      c' := Client(s'.tid, s'.keys, c.datas + [g.data]);
    }
  }

  // ---- A `Next` with its tail calls ----

  /** The same keys from the same build; only one of them may have been read. */
  ghost predicate SameBuild(a: Round, b: Round) {
    a == b.(read := a.read)
  }

  /**
   * A session that begins with this build; its last client is the one that is served, and has this
   * view. With `more` it has more than the first round.
   */
  ghost predicate ServesLast(r: Run, cfg: Config, start: Round, connected: nat, s: Conn, view: Delta.View, more: bool,
                             rounds: seq<Round>, clients: seq<Client>) {
    && IsSession(r, cfg, rounds, connected, clients) && SameBuild(rounds[0], start) && (more ==> |rounds| > 1)
    && Represents(cfg, s, clients[|clients| - 1])
    && Delta.DeltaView(cfg.hash, clients[|clients| - 1].datas) == view
  }

  ghost predicate Serves(r: Run, cfg: Config, start: Round, connected: nat, s: Conn, view: Delta.View, more: bool) {
    exists rounds, clients :: ServesLast(r, cfg, start, connected, s, view, more, rounds, clients)
  }

  lemma {:induction false} ExtendSession(r: Run, cfg: Config, rounds: seq<Round>, connected: nat, clients: seq<Client>,
                                         rd: Round, c: Client)
    requires IsSession(r, cfg, rounds, connected, clients) && LaterRound(r, cfg, clients[|clients| - 1], rd, c)
    ensures IsSession(r, cfg, rounds + [rd], connected, clients + [c])
  {
    var rounds', clients' := rounds + [rd], clients + [c];
    forall i | 0 < i < |rounds'| ensures Continues(r, cfg, rounds', clients', i) {
      assert i < |rounds| ==> Continues(r, cfg, rounds, clients, i);
    }
  }

  lemma {:induction false} RoundServes(r: Run, cfg: Config, start: Round, connected: nat, s: Conn, view: Delta.View,
                                       more: bool,
                                       rounds: seq<Round>, clients: seq<Client>, rd: Round, c: Client,
                                       resp: Response, s': Conn)
    requires ServesLast(r, cfg, start, connected, s, view, more, rounds, clients)
    requires LaterRound(r, cfg, clients[|clients| - 1], rd, c)
    requires Represents(cfg, s', c) && Shown(cfg, clients[|clients| - 1], resp, c)
    ensures Serves(r, cfg, start, connected, s', Apply(view, resp), true)
  {
    ExtendSession(r, cfg, rounds, connected, clients, rd, c);
    SessionServes(r, cfg, start, connected, s', Apply(view, resp), true, rounds + [rd], clients + [c]);
  }

  lemma {:induction false} SessionServes(r: Run, cfg: Config, start: Round, connected: nat, s: Conn, view: Delta.View,
                                         more: bool,
                                         rounds: seq<Round>, clients: seq<Client>)
    requires IsSession(r, cfg, rounds, connected, clients) && SameBuild(rounds[0], start) && (more ==> |rounds| > 1)
    requires Represents(cfg, s, clients[|clients| - 1])
    requires Delta.DeltaView(cfg.hash, clients[|clients| - 1].datas) == view
    ensures Serves(r, cfg, start, connected, s, view, more)
  {
    assert ServesLast(r, cfg, start, connected, s, view, more, rounds, clients);
  }

  lemma {:induction false} OnceServes(r: Run, cfg: Config, start: Round, connected: nat, s: Conn, view: Delta.View,
                                      more: bool,
                                      t: nat, w: World, resp: Response, s': Conn)
    requires Serves(r, cfg, start, connected, s, view, more) && LaterWorld(r, cfg, s.tid, t, w)
    requires NextOnce(cfg, s, w, resp, s') && resp != Error
    ensures Serves(r, cfg, start, connected, s', Apply(view, resp), true) && s'.tid == w.receivedId
  {
    var rounds, clients :| ServesLast(r, cfg, start, connected, s, view, more, rounds, clients);
    var rd, c := LaterIsRound(r, cfg, t, clients[|clients| - 1], s, w, resp, s');
    RoundServes(r, cfg, start, connected, s, view, more, rounds, clients, rd, c, resp, s');
  }

  lemma {:induction false} WorldsNext(r: Run, cfg: Config, tid: nat, ts: seq<nat>, ws: seq<World>)
    requires LaterWorlds(r, cfg, tid, ts, ws) && ws != []
    ensures |ts| == |ws| && LaterWorld(r, cfg, tid, ts[0], ws[0])
    ensures LaterWorlds(r, cfg, ws[0].receivedId, ts[1..], ws[1..])
  {
  }

  /** The first of the worlds leads to the response, or the other worlds are still ahead. */
  lemma {:induction false} FirstWorldServes(r: Run, cfg: Config, start: Round, connected: nat, s: Conn,
                                            view: Delta.View, more: bool, ts: seq<nat>, ws: seq<World>,
                                            resp: Response, s': Conn)
    returns (r1: Response, mid: Conn)
    requires Serves(r, cfg, start, connected, s, view, more) && LaterWorlds(r, cfg, s.tid, ts, ws) && ws != []
    requires NextIs(cfg, s, ws, resp, s') && resp != Error
    ensures Serves(r, cfg, start, connected, mid, Apply(view, r1), true) && mid.tid == ws[0].receivedId
    ensures if r1 == Again then NextIs(cfg, mid, ws[1..], resp, s') else resp == r1 && s' == mid
  {
    WorldsNext(r, cfg, s.tid, ts, ws);
    r1, mid := NextSplits(cfg, s, ws, resp, s');
    OnceServes(r, cfg, start, connected, s, view, more, ts[0], ws[0], r1, mid);
  }

  lemma {:induction false} NextServes(r: Run, cfg: Config, start: Round, connected: nat, s: Conn, view: Delta.View,
                                      more: bool,
                                      ts: seq<nat>, ws: seq<World>, resp: Response, s': Conn)
    requires Serves(r, cfg, start, connected, s, view, more) && LaterWorlds(r, cfg, s.tid, ts, ws)
    requires NextIs(cfg, s, ws, resp, s') && resp != Error
    ensures Serves(r, cfg, start, connected, s', Apply(view, resp), more || ws != [])
    decreases |ws|
  {
    if ws != [] {
      var r1, mid := FirstWorldServes(r, cfg, start, connected, s, view, more, ts, ws, resp, s');
      if r1 == Again {
        WorldsNext(r, cfg, s.tid, ts, ws);
        NextServes(r, cfg, start, connected, mid, view, true, ts[1..], ws[1..], resp, s');
      }
    }
  }

  lemma {:induction false} NextSplits(cfg: Config, s: Conn, ws: seq<World>, resp: Response, s': Conn)
    returns (r1: Response, mid: Conn)
    requires ws != [] && NextIs(cfg, s, ws, resp, s')
    ensures NextOnce(cfg, s, ws[0], r1, mid)
    ensures if r1 == Again then NextIs(cfg, mid, ws[1..], resp, s') else resp == r1 && s' == mid
  {
    r1, mid :| NextOnce(cfg, s, ws[0], r1, mid)
      && if r1 == Again then NextIs(cfg, mid, ws[1..], resp, s') else resp == r1 && s' == mid;
  }

  // ---- All calls of a connection ----

  /** A call of `Next`: the worlds it met, the states of the run in which it met them, its response. */
  datatype NextCall = NextCall(worlds: seq<World>, states: seq<nat>, response: Response)

  ghost predicate FirstCall(r: Run, cfg: Config, connected: nat, s: Conn, call: NextCall, s': Conn) {
    && call.worlds != [] && FirstWorld(r, cfg, connected, call.worlds[0])
    && NextIs(cfg, s, call.worlds, call.response, s') && call.response != Error
  }

  ghost predicate LaterCall(r: Run, cfg: Config, s: Conn, call: NextCall, s': Conn) {
    && LaterWorlds(r, cfg, s.tid, call.states, call.worlds)
    && NextIs(cfg, s, call.worlds, call.response, s') && call.response != Error
  }

  /** These calls of `Next`, none of which failed, took the connection from `s` to `s'`. */
  ghost predicate Served(r: Run, cfg: Config, connected: nat, s: Conn, calls: seq<NextCall>, s': Conn)
    decreases |calls|
  {
    var n := |calls| - 1;
    && calls != []
    && if n == 0 then FirstCall(r, cfg, connected, s, calls[0], s')
       else exists mid :: Served(r, cfg, connected, s, calls[..n], mid) && LaterCall(r, cfg, mid, calls[n], s')
  }

  /** What the client has after the responses of these calls. */
  function ViewAfter(calls: seq<NextCall>): Delta.View {
    if calls == [] then map[] else Apply(ViewAfter(calls[..|calls| - 1]), calls[|calls| - 1].response)
  }

  /** Some call after the first one met a world, so the keys were built again. */
  predicate MetMore(calls: seq<NextCall>) {
    |calls| > 1 && (calls[|calls| - 1].worlds != [] || MetMore(calls[..|calls| - 1]))
  }

  /** The handler took the topic id in state `rd.at`, and then built the keys. */
  ghost predicate Starts(r: Run, cfg: Config, rd: Round, connected: nat, s: Conn) {
    && rd.at <= connected < |r.states| && Builds(r, cfg, rd)
    && s == Conn(|r.states[rd.at].core.topic|, rd.keys, None)
  }

  lemma {:induction false} FirstServes(r: Run, cfg: Config, rd: Round, connected: nat, s: Conn,
                                       call: NextCall, s': Conn)
    requires Starts(r, cfg, rd, connected, s) && FirstCall(r, cfg, connected, s, call, s')
    ensures Serves(r, cfg, rd, connected, s', Apply(map[], call.response), false)
  {
    var r1, mid := NextSplits(cfg, s, call.worlds, call.response, s');
    var rd', c := FirstIsRound(r, cfg, rd, connected, s, call.worlds[0], r1, mid);
    assert IsSession(r, cfg, [rd'], connected, [c]);
    SessionServes(r, cfg, rd, connected, s', Apply(map[], call.response), false, [rd'], [c]);
  }

  lemma {:induction false} ServedSplits(r: Run, cfg: Config, connected: nat, s: Conn, calls: seq<NextCall>, s': Conn)
    returns (mid: Conn)
    requires Served(r, cfg, connected, s, calls, s') && |calls| > 1
    ensures Served(r, cfg, connected, s, calls[..|calls| - 1], mid) && LaterCall(r, cfg, mid, calls[|calls| - 1], s')
  {
    var n := |calls| - 1;
    mid :| Served(r, cfg, connected, s, calls[..n], mid) && LaterCall(r, cfg, mid, calls[n], s');
  }

  /** The calls of a connection are a session of the run, and the responses build up its client's view. */
  lemma {:induction false} ServedIsSession(r: Run, cfg: Config, rd: Round, connected: nat, s: Conn,
                                           calls: seq<NextCall>, s': Conn)
    requires Starts(r, cfg, rd, connected, s) && Served(r, cfg, connected, s, calls, s')
    ensures Serves(r, cfg, rd, connected, s', ViewAfter(calls), MetMore(calls))
    decreases |calls|
  {
    var n := |calls| - 1;
    if n == 0 {
      assert ViewAfter(calls[..0]) == map[];
      FirstServes(r, cfg, rd, connected, s, calls[0], s');
    } else {
      var mid := ServedSplits(r, cfg, connected, s, calls, s');
      ServedIsSession(r, cfg, rd, connected, s, calls[..n], mid);
      var call := calls[n];
      NextServes(r, cfg, rd, connected, mid, ViewAfter(calls[..n]), MetMore(calls[..n]),
                 call.states, call.worlds, call.response, s');
    }
  }

  lemma {:induction false} ServedClient(r: Run, cfg: Config, start: Round, connected: nat, s: Conn, view: Delta.View,
                                        more: bool)
    returns (rounds: seq<Round>, clients: seq<Client>, i: nat)
    requires Serves(r, cfg, start, connected, s, view, more)
    ensures IsSession(r, cfg, rounds, connected, clients) && i < |clients| && SameBuild(rounds[0], start)
    ensures more ==> i > 0
    ensures clients[i].tid == s.tid && clients[i].keys == s.keys
    ensures Delta.DeltaView(cfg.hash, clients[i].datas) == view
  {
    rounds, clients :| ServesLast(r, cfg, start, connected, s, view, more, rounds, clients);
    i := |clients| - 1;
  }

  /**
   * After every call of `Next`, each current key of the connection shows, in the view that the
   * client made of the responses, its restricted value at a position not older than `tid`.
   */
  lemma {:induction false} ResponsesAreUpToDate(r: Run, cfg: Config, rd: Round, connected: nat, s: Conn,
                                                calls: seq<NextCall>, s': Conn, k: Key)
    requires HonestRun(r) && Starts(r, cfg, rd, connected, s) && Served(r, cfg, connected, s, calls, s')
    requires TellsVersions(Final(r).store, cfg) && k in s'.keys
    ensures s'.tid <= |Final(r).topic| && ShowsCurrent(Final(r), cfg.restricts, ViewAfter(calls), k, s'.tid)
  {
    ServedIsSession(r, cfg, rd, connected, s, calls, s');
    var rounds, clients, i := ServedClient(r, cfg, rd, connected, s', ViewAfter(calls), MetMore(calls));
    ClientIsUpToDate(r, cfg, rounds, connected, clients, i, k);
  }

  lemma {:induction false} SessionBuilds(r: Run, cfg: Config, rounds: seq<Round>, connected: nat, clients: seq<Client>,
                                         i: nat)
    requires IsSession(r, cfg, rounds, connected, clients) && i < |clients|
    ensures Builds(r, cfg, rounds[i]) && rounds[i].keys == clients[i].keys
  {
    if i > 0 {
      assert Continues(r, cfg, rounds, clients, i);
    }
  }

  /**
   * When the log has ended and `tid` stands for all of it, the view that the responses made
   * shows the restricted store on the current keys. Those keys come from a build of the run, are
   * keys of the request's meaning, and are all of them if no level of that build was ambiguous.
   */
  lemma {:induction false} ResponsesConverge(r: Run, cfg: Config, snap: Key -> Raw, rd: Round, connected: nat, s: Conn,
                                             calls: seq<NextCall>, s': Conn, k: Key)
    returns (last: Round)
    requires HonestRun(r) && Starts(r, cfg, rd, connected, s) && Served(r, cfg, connected, s, calls, s')
    requires TellsVersions(Final(r).store, cfg) && IsSnapshot(r, cfg, snap)
    requires s'.tid <= |Final(r).topic| && Position(Final(r).topic, s'.tid) == |Final(r).store.log|
    ensures Builds(r, cfg, last) && last.keys == s'.keys
    ensures k in s'.keys ==> ShowsUpToOrder(ViewAfter(calls), k, snap(k))
    ensures (MetMore(calls) || GapHarmless(r, rd, connected)) && k in s'.keys ==> RequestDenotes(cfg.bodies, snap, k)
    ensures (MetMore(calls) || GapHarmless(r, rd, connected)) && Clear(cfg, snap, last) ==>
      (k in s'.keys <==> RequestDenotes(cfg.bodies, snap, k))
  {
    ServedIsSession(r, cfg, rd, connected, s, calls, s');
    var rounds, clients, i := ServedClient(r, cfg, rd, connected, s', ViewAfter(calls), MetMore(calls));
    last := rounds[i];
    SessionBuilds(r, cfg, rounds, connected, clients, i);
    if k in s'.keys {
      var v := CaughtUpShowsStore(r, cfg, rounds, connected, clients, i, k);
    }
    if MetMore(calls) || GapHarmless(r, rd, connected) {
      if i == 0 {
        SameBuildSameGap(r, rounds[0], rd, connected);
      }
      Convergence(r, cfg, snap, rounds, connected, clients, i, k);
    }
  }

  lemma {:induction false} SameBuildSameGap(r: Run, a: Round, b: Round, connected: nat)
    requires SameBuild(a, b) && b.at <= connected < |r.states| && GapHarmless(r, b, connected)
    ensures GapHarmless(r, a, connected)
  {
    assert forall i: nat, k :: FollowedKey(a, i, k) == FollowedKey(b, i, k);
  }

  // ---- Minimal responses, also across errors and outside of any run ----

  /** Any calls of `Next` on a new connection: `conns[i]` is the connection before call `i`. */
  ghost predicate IsSeries(cfg: Config, calls: seq<NextCall>, conns: seq<Conn>) {
    && |conns| == |calls| + 1 && conns[0].history.None?
    && forall i :: 0 <= i < |calls| ==> CallAt(cfg, calls, conns, i)
  }

  ghost predicate CallAt(cfg: Config, calls: seq<NextCall>, conns: seq<Conn>, i: nat)
    requires i < |calls| && |conns| == |calls| + 1
  {
    NextIs(cfg, conns[i], calls[i].worlds, calls[i].response, conns[i + 1])
  }

  /** The connection knows exactly which values the client has, by their hashes. */
  ghost predicate Knows(cfg: Config, s: Conn, view: Delta.View) {
    Delta.Tracks(cfg.hash, if s.history.None? then map[] else s.history.value, view)
  }

  /** Every entry of the response changes what the client has. */
  ghost predicate Minimal(view: Delta.View, r: Response) {
    r.Data? ==> forall k :: k in r.data ==> !Delta.Same(Delta.Receive(view, r.data), view, k)
  }

  lemma {:induction false} SendsMinimal(cfg: Config, h: Delta.History, w: World, keys: seq<Key>, r: Response,
                                        h': Option<Delta.History>, view: Delta.View)
    requires Delta.Tracks(cfg.hash, h, view) && Sends(cfg, h, w, keys, r, h')
    ensures h'.Some? && Delta.Tracks(cfg.hash, h'.value, Apply(view, r)) && Minimal(view, r)
  {
    if ReadData(w.restrict, keys, w.get(keys)).Some? {
      var data := ReadData(w.restrict, keys, w.get(keys)).value;
      Delta.TracksKept(cfg.hash, h, view, data);
      forall k | k in Delta.Sent(cfg.hash, h, data)
        ensures !Delta.Same(Delta.Receive(view, Delta.Sent(cfg.hash, h, data)), view, k)
      {
        Delta.DeltaIsMinimal(cfg.hash, h, view, data, k);
      }
    }
  }

  lemma {:induction false} OnceMinimal(cfg: Config, s: Conn, w: World, r: Response, s': Conn, view: Delta.View)
    requires Knows(cfg, s, view) && NextOnce(cfg, s, w, r, s')
    ensures Knows(cfg, s', Apply(view, r)) && Minimal(view, r)
  {
    if s.history.None? {
      SendsMinimal(cfg, map[], w, s.keys, r, s'.history, view);
    } else if w.changed.Some? {
      var outcome, t :| Refreshes(cfg, s, w, outcome, t, r, s');
      var keys := KeysToRead(s.keys, s'.keys, Elements(w.changed.value));
      if outcome == Updated && keys != [] {
        SendsMinimal(cfg, s.history.value, w, keys, r, s'.history, view);
      }
    }
  }

  lemma {:induction false} NextMinimal(cfg: Config, s: Conn, ws: seq<World>, r: Response, s': Conn, view: Delta.View)
    requires Knows(cfg, s, view) && NextIs(cfg, s, ws, r, s')
    ensures Knows(cfg, s', Apply(view, r)) && Minimal(view, r)
    decreases |ws|
  {
    if ws != [] {
      var r1, mid := NextSplits(cfg, s, ws, r, s');
      OnceMinimal(cfg, s, ws[0], r1, mid, view);
      if r1 == Again {
        NextMinimal(cfg, mid, ws[1..], r, s', view);
      }
    }
  }

  lemma {:induction false} SeriesKnows(cfg: Config, calls: seq<NextCall>, conns: seq<Conn>, i: nat)
    requires IsSeries(cfg, calls, conns) && i <= |calls|
    ensures Knows(cfg, conns[i], ViewAfter(calls[..i]))
  {
    if i > 0 {
      SeriesKnows(cfg, calls, conns, i - 1);
      assert CallAt(cfg, calls, conns, i - 1);
      assert calls[..i][..i - 1] == calls[..i - 1];
      NextMinimal(cfg, conns[i - 1], calls[i - 1].worlds, calls[i - 1].response, conns[i], ViewAfter(calls[..i - 1]));
    }
  }

  /** No response of any series of calls resends what the client has, or removes what it has not. */
  lemma {:induction false} ResponsesAreMinimal(cfg: Config, calls: seq<NextCall>, conns: seq<Conn>, i: nat)
    requires IsSeries(cfg, calls, conns) && i < |calls|
    ensures Minimal(ViewAfter(calls[..i]), calls[i].response)
  {
    SeriesKnows(cfg, calls, conns, i);
    assert CallAt(cfg, calls, conns, i);
    NextMinimal(cfg, conns[i], calls[i].worlds, calls[i].response, conns[i + 1], ViewAfter(calls[..i]));
  }
}
