/**
 * The real restricter behind the connection: no response ever shows a user what the permissions
 * hide, and the client converges to what they permit.
 */
module Visibility {
  import opened Values
  import opened Fields
  import opened CallRuns
  import opened Request
  import opened ClientConnection
  import opened Restricting
  import opened EndToEnd
  import opened Session
  import opened Flights
  import opened StoreLog
  import Delta

  datatype Rights = Rights(checks: Checks, mayField: Key -> bool, mayId: string -> bool)

  /** The rights permit to show `v'` for the value `v`. */
  ghost predicate Permits(rights: Rights, k: Key, v: Raw, v': Raw) {
    Restricts(rights.checks, rights.mayField, rights.mayId, k, v, v')
  }

  ghost function Permitted(rights: Rights): Restriction {
    (k, v, v') => Permits(rights, k, v, v')
  }

  /** The restricter of this world restricts by these rights. */
  ghost predicate Respects(rights: Rights, w: World) {
    forall raw: map<Key, Raw> :: w.restrict(raw).Some? ==> RestrictedAs(Permitted(rights), raw, w.restrict(raw).value)
  }

  // ---- The restricter with its permission service ----

  /** What the restricter of this world gives is a result of `Restrict` with this permission service. */
  ghost predicate Serviced(p: Permission, rights: Rights, w: World) {
    forall raw: map<Key, Raw> :: w.restrict(raw).Some? ==> RestrictsLike(p, rights, raw, w.restrict(raw))
  }

  ghost predicate RestrictsLike(p: Permission, rights: Rights, raw: map<Key, Raw>, given: Option<map<Key, Raw>>) {
    exists keys :: Restricting.Answered(p, rights.checks, raw, keys, given)
  }

  /** With a consistent permission service `Restrict` restricts by the rights. */
  lemma {:induction false} ServiceRespects(p: Permission, rights: Rights, w: World)
    requires Consistent(p, rights.mayField, rights.mayId) && Serviced(p, rights, w)
    ensures Respects(rights, w)
  {
    forall raw: map<Key, Raw> | w.restrict(raw).Some?
      ensures RestrictedAs(Permitted(rights), raw, w.restrict(raw).value)
    {
      ServiceRestricts(p, rights, raw, w.restrict(raw).value);
    }
  }

  lemma {:induction false} ServiceRestricts(p: Permission, rights: Rights, raw: map<Key, Raw>, data: map<Key, Raw>)
    requires Consistent(p, rights.mayField, rights.mayId) && RestrictsLike(p, rights, raw, Some(data))
    ensures RestrictedAs(Permitted(rights), raw, data)
  {
    var keys :| Restricting.Answered(p, rights.checks, raw, keys, Some(data));
    forall k | k in raw ensures Permits(rights, k, raw[k], data[k]) {
      assert k in Elements(keys);
      RestrictsAsPermitted(p, rights.checks, rights.mayField, rights.mayId, keys, k, raw[k], data[k]);
    }
  }

  // ---- Only visible values ----

  /**
   * The user may see the value: it is empty, or its key is visible, and so is every object that it
   * names if its field is a relation list.
   */
  ghost predicate Visible(rights: Rights, k: Key, v: Raw) {
    v == Nil || v == Bytes("") ||
    (rights.mayField(k) && forall c, f :: BelongsTo(k, c, f) ==> NamesVisible(rights, c, f, v))
  }

  /** The objects that a value of this field names are visible. */
  ghost predicate NamesVisible(rights: Rights, collection: string, field: string, v: Raw) {
    && (forall model :: HasChecker(rights.checks, collection, field, Some(Checker.RelationList(model))) ==>
          && v.Doc? && v.json.Arr?
          && forall x :: x in v.json.items ==> x.Int? && rights.mayId(model + "/" + Itoa(x.number)))
    && (HasChecker(rights.checks, collection, field, Some(GenericRelationList)) ==>
          && v.Doc? && v.json.Arr?
          && forall x :: x in v.json.items ==> x.Str? && rights.mayId(x.text))
  }

  ghost predicate AllVisible(rights: Rights, data: map<Key, Raw>) {
    forall k :: k in data ==> Visible(rights, k, data[k])
  }

  lemma {:induction false} LeftIsVisible(rights: Rights, k: Key, c: string, f: string, v: Raw, v': Raw)
    requires Leaves(rights.checks, rights.mayField, rights.mayId, k, c, f, v, v') && v != Nil && rights.mayField(k)
    ensures NamesVisible(rights, c, f, v')
  {
  }

  lemma {:induction false} RestrictedIsVisible(rights: Rights, k: Key, v: Raw, v': Raw)
    requires Restricts(rights.checks, rights.mayField, rights.mayId, k, v, v')
    ensures Visible(rights, k, v')
  {
    if v != Nil && rights.mayField(k) {
      forall c, f | BelongsTo(k, c, f) ensures NamesVisible(rights, c, f, v') {
        RestrictsLeaves(rights.checks, rights.mayField, rights.mayId, k, c, f, v, v');
        LeftIsVisible(rights, k, c, f, v, v');
      }
    }
  }

  lemma {:induction false} SendsVisible(cfg: Config, rights: Rights, h: Delta.History, w: World, keys: seq<Key>,
                                        r: Response, h': Option<Delta.History>)
    requires Respects(rights, w) && Sends(cfg, h, w, keys, r, h') && r.Data?
    ensures AllVisible(rights, r.data)
  {
    var raw := Zip(keys, w.get(keys).value);
    var data := w.restrict(raw).value;
    assert RestrictedAs(Permitted(rights), raw, data);
    forall k | k in r.data ensures Visible(rights, k, r.data[k]) {
      assert r.data[k] == data[k] && Permitted(rights)(k, raw[k], data[k]);
      RestrictedIsVisible(rights, k, raw[k], data[k]);
    }
  }

  lemma {:induction false} OnceVisible(cfg: Config, rights: Rights, s: Conn, w: World, r: Response, s': Conn)
    requires Respects(rights, w) && NextOnce(cfg, s, w, r, s') && r.Data?
    ensures AllVisible(rights, r.data)
  {
    if s.history.None? {
      SendsVisible(cfg, rights, map[], w, s.keys, r, s'.history);
    } else {
      var outcome, t :| Refreshes(cfg, s, w, outcome, t, r, s');
      var keys := KeysToRead(s.keys, s'.keys, Elements(w.changed.value));
      SendsVisible(cfg, rights, s.history.value, w, keys, r, s'.history);
    }
  }

  ghost predicate AllRespect(rights: Rights, ws: seq<World>) {
    forall i :: 0 <= i < |ws| ==> Respects(rights, ws[i])
  }

  /** The restricter restricts by the rights in every call of the series. */
  ghost predicate SeriesRespects(rights: Rights, calls: seq<NextCall>) {
    forall i :: 0 <= i < |calls| ==> AllRespect(rights, calls[i].worlds)
  }

  lemma {:induction false} NextVisible(cfg: Config, rights: Rights, s: Conn, ws: seq<World>, r: Response, s': Conn)
    requires AllRespect(rights, ws) && NextIs(cfg, s, ws, r, s') && r.Data?
    ensures AllVisible(rights, r.data)
    decreases |ws|
  {
    if ws != [] {
      var r1, mid := NextSplits(cfg, s, ws, r, s');
      if r1 == Again {
        NextVisible(cfg, rights, mid, ws[1..], r, s');
      } else {
        OnceVisible(cfg, rights, s, ws[0], r1, mid);
      }
    }
  }

  /** No response of any series of calls holds a value, or names an object, that the user may not see. */
  lemma {:induction false} ResponsesAreVisible(cfg: Config, rights: Rights, calls: seq<NextCall>, conns: seq<Conn>,
                                               i: nat)
    requires SeriesRespects(rights, calls) && IsSeries(cfg, calls, conns) && i < |calls| && calls[i].response.Data?
    ensures AllVisible(rights, calls[i].response.data)
  {
    assert CallAt(cfg, calls, conns, i);
    NextVisible(cfg, rights, conns[i], calls[i].worlds, calls[i].response, conns[i + 1]);
  }

  /** So the client never has anything that its user may not see. */
  lemma {:induction false} ViewIsVisible(cfg: Config, rights: Rights, calls: seq<NextCall>, conns: seq<Conn>, i: nat)
    requires SeriesRespects(rights, calls) && IsSeries(cfg, calls, conns) && i <= |calls|
    ensures AllVisible(rights, ViewAfter(calls[..i]))
  {
    if i > 0 {
      ViewIsVisible(cfg, rights, calls, conns, i - 1);
      assert calls[..i][..i - 1] == calls[..i - 1];
      if calls[i - 1].response.Data? {
        ResponsesAreVisible(cfg, rights, calls, conns, i - 1);
      }
    }
  }

  // ---- Convergence to what is permitted ----

  /** The restricter gives only values that the rights permit. */
  ghost predicate Within(cfg: Config, rights: Rights) {
    forall k, v, v' :: cfg.restricts(k, v, v') ==> Permits(rights, k, v, v')
  }

  /** Some permitted value for the store at the end of the run; there is one, up to the order of lists. */
  ghost function PermittedValue(s: Store, rights: Rights, k: Key): Raw {
    if exists v :: Permits(rights, k, s.At(k, |s.log|), v) then
      var v :| Permits(rights, k, s.At(k, |s.log|), v); v
    else Nil
  }

  ghost function PermittedStore(s: Store, rights: Rights): Key -> Raw {
    k => PermittedValue(s, rights, k)
  }

  lemma {:induction false} PermittedIsSnapshot(r: Run, cfg: Config, rights: Rights)
    requires r.states != [] && Within(cfg, rights)
    ensures IsSnapshot(r, cfg, PermittedStore(Final(r).store, rights))
  {
    var s := Final(r).store;
    forall k, v | cfg.restricts(k, s.At(k, |s.log|), v) ensures SameUpToOrder(v, PermittedStore(s, rights)(k)) {
      assert Permits(rights, k, s.At(k, |s.log|), v);
      RestrictedOneWay(rights.checks, rights.mayField, rights.mayId, k, s.At(k, |s.log|), v,
                       PermittedValue(s, rights, k));
    }
  }

  /** The datastore's `Get` in this world is a read of the run, begun after state `at`. */
  ghost predicate ReadInRun(r: Run, at: nat, w: World) {
    forall keys: seq<Key> :: w.get(keys).Some? ==> ReadsRaw(r, at, keys, w.get(keys).value)
  }

  ghost predicate ReadsRaw(r: Run, at: nat, keys: seq<Key>, values: seq<Raw>) {
    exists g :: Happens(r, g) && at <= g.begins && g.keys == keys && g.values == values
  }

  /** The restricter gave these values in this world. */
  ghost predicate Covers(cfg: Config, w: World) {
    forall raw: map<Key, Raw> :: w.restrict(raw).Some? ==> RestrictedAs(cfg.restricts, raw, w.restrict(raw).value)
  }

  /** Reads of the run that go through the restricter make a world of the run. */
  lemma {:induction false} ReadsAreGot(r: Run, cfg: Config, at: nat, w: World)
    requires ReadInRun(r, at, w) && Covers(cfg, w)
    ensures GotBy(r, cfg, at, w)
  {
    forall keys: seq<Key> | Got(w, keys).Some? ensures ReadAs(r, cfg, at, keys, Got(w, keys).value) {
      var values := w.get(keys).value;
      assert ReadsRaw(r, at, keys, values);
      var g :| Happens(r, g) && at <= g.begins && g.keys == keys && g.values == values;
      var data := w.restrict(Zip(keys, values)).value;
      assert ReadsKeys(r, cfg.restricts, at, g.(data := data), keys);
    }
  }

  /**
   * What the real restricter gives, with a consistent permission service: any relation that holds
   * exactly what it gave in these worlds is within the rights.
   */
  lemma {:induction false} GivenIsWithin(cfg: Config, p: Permission, rights: Rights, ws: seq<World>)
    requires Consistent(p, rights.mayField, rights.mayId)
    requires forall w :: w in ws ==> Serviced(p, rights, w)
    requires forall k, v, v' :: cfg.restricts(k, v, v') ==> GivenIn(ws, k, v, v')
    ensures Within(cfg, rights)
  {
    forall k, v, v' | cfg.restricts(k, v, v') ensures Permits(rights, k, v, v') {
      assert GivenIn(ws, k, v, v');
      var w, raw :| w in ws && Yields(w, raw, k, v, v');
      ServiceRestricts(p, rights, raw, w.restrict(raw).value);
      assert Permitted(rights)(k, raw[k], w.restrict(raw).value[k]);
    }
  }

  ghost predicate Yields(w: World, raw: map<Key, Raw>, k: Key, v: Raw, v': Raw) {
    k in raw && raw[k] == v && w.restrict(raw).Some? && k in w.restrict(raw).value && w.restrict(raw).value[k] == v'
  }

  ghost predicate GivenIn(ws: seq<World>, k: Key, v: Raw, v': Raw) {
    exists w, raw :: w in ws && Yields(w, raw, k, v, v')
  }

  /**
   * End to end with the real restricter: a client that has caught up shows, up to the order of
   * lists, what the permissions permit of the store, and its keys are the meaning of its request
   * over just that.
   */
  lemma {:induction false} ConvergesToPermitted(r: Run, cfg: Config, rights: Rights, rd: Round, connected: nat, s: Conn,
                                                calls: seq<NextCall>, s': Conn, k: Key) returns (last: Round)
    requires HonestRun(r) && Starts(r, cfg, rd, connected, s) && Served(r, cfg, connected, s, calls, s')
    requires Within(cfg, rights) && TellsVersions(Final(r).store, cfg)
    requires s'.tid <= |Final(r).topic| && Position(Final(r).topic, s'.tid) == |Final(r).store.log|
    ensures Builds(r, cfg, last) && last.keys == s'.keys
    ensures var snap := PermittedStore(Final(r).store, rights);
      && (k in s'.keys ==> ShowsUpToOrder(ViewAfter(calls), k, snap(k)))
      && (MetMore(calls) || GapHarmless(r, rd, connected) ==>
            && (k in s'.keys ==> RequestDenotes(cfg.bodies, snap, k))
            && (Clear(cfg, snap, last) ==> (k in s'.keys <==> RequestDenotes(cfg.bodies, snap, k))))
  {
    var snap := PermittedStore(Final(r).store, rights);
    PermittedIsSnapshot(r, cfg, rights);
    last := ResponsesConverge(r, cfg, snap, rd, connected, s, calls, s', k);
  }

  // ---- Null ----

  /** A key whose last write is null has no value for any user, so a caught-up client does not have it. */
  lemma {:induction false} NullIsRemoved(s: Store, rights: Rights, k: Key)
    requires LastWrite(s.log, k) == Some(Doc(Null))
    ensures PermittedValue(s, rights, k) == Nil
  {
    assert s.log[..|s.log|] == s.log;
    AtIsLastWrite(s, k, |s.log|);
    assert Permits(rights, k, Nil, Nil);
  }
}
