/** A client's connection: which keys each `Next` reads, and what it sends. */
module ClientConnection {
  import opened Values
  import opened Fields
  import opened Request
  import opened KeysBuilder
  import opened Delta

  // ---- Restricted data ----

  /** One use of the restricter for a user: new values for the data, or an error. */
  type Restricter = map<Key, Raw> -> Option<map<Key, Raw>>

  /** Which new values the restricter gives for a key and its value. */
  type Restriction = (Key, Raw, Raw) -> bool

  /** The values of a list of keys as a map; for a key that is listed twice the last one counts. */
  function Zip(keys: seq<Key>, values: seq<Raw>): map<Key, Raw>
    requires |keys| == |values|
  {
    if keys == [] then map[]
    else Zip(keys[..|keys| - 1], values[..|keys| - 1])[keys[|keys| - 1] := values[|keys| - 1]]
  }

  /** The data has new values for exactly the same keys. */
  ghost predicate RestrictedAs(restricts: Restriction, raw: map<Key, Raw>, data: map<Key, Raw>) {
    data.Keys == raw.Keys && forall k :: k in raw ==> restricts(k, raw[k], data[k])
  }

  /** What `RestrictedData` returns, given the answer of the datastore's `Get`. */
  function ReadData(restrict: Restricter, keys: seq<Key>, values: Option<seq<Raw>>): Option<map<Key, Raw>>
    requires values.Some? ==> |values.value| == |keys|
  {
    if values.None? then None else restrict(Zip(keys, values.value))
  }

  /** `RestrictedData`: the loop puts each value under its key before the restricter gets the data. */
  method RestrictedData(restrict: Restricter, keys: seq<Key>, values: Option<seq<Raw>>)
    returns (r: Option<map<Key, Raw>>)
    requires values.Some? ==> |values.value| == |keys|
    ensures r == ReadData(restrict, keys, values)
  {
    if values.None? {
      return None;
    }
    var data: map<Key, Raw> := map[];
    for i := 0 to |keys|
      invariant data == Zip(keys[..i], values.value[..i])
    {
      assert keys[..i + 1][..i] == keys[..i] && values.value[..i + 1][..i] == values.value[..i];
      data := data[keys[i] := values.value[i]];
    }
    assert keys[..|keys|] == keys && values.value[..|keys|] == values.value;
    return restrict(data);
  }

  lemma {:induction false} ZipKeys(keys: seq<Key>, values: seq<Raw>)
    requires |keys| == |values|
    ensures Zip(keys, values).Keys == Elements(keys)
  {
    if keys != [] {
      var n := |keys| - 1;
      ZipKeys(keys[..n], values[..n]);
      assert keys == keys[..n] + [keys[n]];
      ElementsAppend(keys[..n], keys[n]);
    }
  }

  /** Each entry comes from some index of its key. */
  lemma {:induction false} ZipFrom(keys: seq<Key>, values: seq<Raw>, k: Key) returns (i: nat)
    requires |keys| == |values| && k in keys
    ensures i < |keys| && keys[i] == k && k in Zip(keys, values) && Zip(keys, values)[k] == values[i]
  {
    var n := |keys| - 1;
    if keys[n] == k {
      i := n;
    } else {
      assert keys == keys[..n] + [keys[n]];
      i := ZipFrom(keys[..n], values[..n], k);
    }
  }

  /** For a key that is listed more than once the last value counts. */
  lemma {:induction false} ZipLast(keys: seq<Key>, values: seq<Raw>, i: nat)
    requires |keys| == |values| && i < |keys| && forall j :: i < j < |keys| ==> keys[j] != keys[i]
    ensures keys[i] in Zip(keys, values) && Zip(keys, values)[keys[i]] == values[i]
  {
    var n := |keys| - 1;
    if i < n {
      ZipLast(keys[..n], values[..n], i);
    }
  }

  // ---- The keys to read ----

  function NewKeys(old': seq<Key>, new': seq<Key>): seq<Key> {
    if new' == [] then []
    else
      var k := new'[|new'| - 1];
      NewKeys(old', new'[..|new'| - 1]) + if k in old' then [] else [k]
  }

  function ChangedKeys(old': seq<Key>, changed: set<Key>): seq<Key> {
    if old' == [] then []
    else
      var k := old'[|old'| - 1];
      ChangedKeys(old'[..|old'| - 1], changed) + if k in changed then [k] else []
  }

  /** New keys, then old keys that have changed. */
  function KeysToRead(old': seq<Key>, new': seq<Key>, changed: set<Key>): seq<Key> {
    NewKeys(old', new') + ChangedKeys(old', changed)
  }

  lemma {:induction false} NewKeysAre(old': seq<Key>, new': seq<Key>, k: Key)
    ensures k in NewKeys(old', new') <==> k in new' && k !in old'
  {
    if new' != [] {
      NewKeysAre(old', new'[..|new'| - 1], k);
      assert new' == new'[..|new'| - 1] + [new'[|new'| - 1]];
    }
  }

  lemma {:induction false} ChangedKeysAre(old': seq<Key>, changed: set<Key>, k: Key)
    ensures k in ChangedKeys(old', changed) <==> k in old' && k in changed
  {
    if old' != [] {
      ChangedKeysAre(old'[..|old'| - 1], changed, k);
      assert old' == old'[..|old'| - 1] + [old'[|old'| - 1]];
    }
  }

  /** A key is read exactly when it is new for the client or was reported as changed. */
  lemma {:induction false} KeysToReadAre(old': seq<Key>, new': seq<Key>, changed: set<Key>, k: Key)
    ensures k in KeysToRead(old', new', changed) <==> (k in new' && k !in old') || (k in old' && k in changed)
  {
    NewKeysAre(old', new', k);
    ChangedKeysAre(old', changed, k);
  }

  method KeysDiff(old': seq<Key>, new': seq<Key>) returns (added: seq<Key>)
    ensures added == NewKeys(old', new')
  {
    var keySet := {};
    for i := 0 to |old'|
      invariant keySet == Elements(old'[..i])
    {
      assert old'[..i + 1] == old'[..i] + [old'[i]];
      ElementsAppend(old'[..i], old'[i]);
      keySet := keySet + {old'[i]};
    }
    assert old'[..|old'|] == old';
    added := [];
    for i := 0 to |new'|
      invariant added == NewKeys(old', new'[..i])
    {
      assert new'[..i + 1][..i] == new'[..i];
      if new'[i] in keySet {
        continue;
      }
      added := added + [new'[i]];
    }
    assert new'[..|new'|] == new';
  }

  method AppendChanged(old': seq<Key>, changed: seq<Key>, start: seq<Key>) returns (keys: seq<Key>)
    ensures keys == start + ChangedKeys(old', Elements(changed))
  {
    var changedSet := {};
    for i := 0 to |changed|
      invariant changedSet == Elements(changed[..i])
    {
      assert changed[..i + 1] == changed[..i] + [changed[i]];
      ElementsAppend(changed[..i], changed[i]);
      changedSet := changedSet + {changed[i]};
    }
    assert changed[..|changed|] == changed;
    keys := start;
    for i := 0 to |old'|
      invariant keys == start + ChangedKeys(old'[..i], Elements(changed))
    {
      assert old'[..i + 1][..i] == old'[..i];
      if old'[i] !in changedSet {
        continue;
      }
      keys := keys + [old'[i]];
    }
    assert old'[..|old'|] == old';
  }

  // ---- What one call of `Next` does ----

  /** `restricts` is not known to the code: it says what the restricter gives in a run. */
  datatype Config = Config(restricts: Restriction, hash: Hash, bodies: seq<Body>)

  /** A connection by its values; it has no history before the first call. */
  datatype Conn = Conn(tid: nat, keys: seq<Key>, history: Option<History>)

  /**
   * What the topic, the data provider, the datastore and the restricter answer while `Next` runs
   * once. No `changed` keys: `Receive` failed. No answer of `get` or `restrict`: an error.
   */
  datatype World = World(
    lastId: nat,
    receivedId: nat,
    changed: Option<seq<Key>>,
    provider: Provider,
    get: seq<Key> -> Option<seq<Raw>>,
    restrict: Restricter)

  ghost predicate Answers(w: World) {
    forall keys: seq<Key> :: w.get(keys).Some? ==> |w.get(keys).value| == |keys|
  }

  /** `Again` stands for the tail call of `Next` when there is nothing to read. */
  datatype Response = Data(data: map<Key, Raw>) | Again | Error

  /** Reading these keys and sending what is new to the client. */
  ghost predicate Sends(cfg: Config, h: History, w: World, keys: seq<Key>, r: Response, h': Option<History>) {
    && (w.get(keys).Some? ==> |w.get(keys).value| == |keys|)
    && match ReadData(w.restrict, keys, w.get(keys))
       case None => r == Error && h' == Some(h)
       case Some(data) => r == Data(Sent(cfg.hash, h, data)) && h' == Some(After(cfg.hash, h, data))
  }

  /** The first call reads all keys. An id of zero is replaced by the newest one. */
  ghost predicate FirstNext(cfg: Config, s: Conn, w: World, r: Response, s': Conn) {
    && s.history.None? && s'.keys == s.keys
    && s'.tid == (if s.tid == 0 then w.lastId else s.tid)
    && Sends(cfg, map[], w, s.keys, r, s'.history)
  }

  /** A later call rebuilds the keys, and reads new keys and reported keys. */
  ghost predicate LaterNext(cfg: Config, s: Conn, w: World, r: Response, s': Conn) {
    && s.history.Some? && s'.tid == w.receivedId
    && match w.changed
       case None => r == Error && s'.keys == s.keys && s'.history == s.history
       case Some(_) => exists outcome, t :: Refreshes(cfg, s, w, outcome, t, r, s')
  }

  ghost predicate Refreshes(cfg: Config, s: Conn, w: World, outcome: Outcome, t: Trace, r: Response, s': Conn)
    requires s.history.Some? && w.changed.Some?
  {
    && EndsWith(cfg.bodies, w.provider, outcome, t)
    && if outcome != Updated then r == Error && s'.keys == [] && s'.history == s.history
       else
         && (forall x :: x in s'.keys <==> Built(t.levels, x))
         && var keys := KeysToRead(s.keys, s'.keys, Elements(w.changed.value));
            if keys == [] then r == Again && s'.history == s.history
            else Sends(cfg, s.history.value, w, keys, r, s'.history)
  }

  ghost predicate NextOnce(cfg: Config, s: Conn, w: World, r: Response, s': Conn) {
    if s.history.None? then FirstNext(cfg, s, w, r, s') else LaterNext(cfg, s, w, r, s')
  }

  /** `Next` goes on while there is nothing to read; when the worlds are used up, it still waits. */
  ghost predicate NextIs(cfg: Config, s: Conn, ws: seq<World>, r: Response, s': Conn)
    decreases |ws|
  {
    if ws == [] then r == Again && s' == s
    else exists r1, mid ::
      && NextOnce(cfg, s, ws[0], r1, mid)
      && if r1 == Again then NextIs(cfg, mid, ws[1..], r, s') else r == r1 && s' == mid
  }

  // ---- The connection object ----

  class Connection {
    ghost const restricts: Restriction
    const hash: Hash
    const kb: Builder
    var tid: nat
    var filter: Filter?

    ghost function Cfg(): Config {
      Config(restricts, hash, kb.bodies)
    }

    ghost function State(): Conn
      requires kb.Valid()
      reads this, filter, kb, kb.buffer
    {
      Conn(tid, kb.Contents(), if filter == null then None else Some(filter.history))
    }

    constructor (ghost restricts: Restriction, hash: Hash, kb: Builder, tid: nat)
      requires kb.Valid()
      ensures this.kb == kb && Cfg() == Config(restricts, hash, kb.bodies)
      ensures State() == Conn(tid, kb.Contents(), None)
    {
      this.restricts, this.hash, this.kb, this.tid, filter := restricts, hash, kb, tid, null;
    }

    method First(w: World) returns (r: Response)
      requires filter == null && kb.Valid() && Answers(w)
      modifies this
      ensures filter != null && fresh(filter)
      ensures FirstNext(Cfg(), old(State()), w, r, State())
    {
      filter := new Filter();
      if tid == 0 {
        tid := w.lastId;
      }
      var keys := kb.Keys();
      var data := RestrictedData(w.restrict, keys[..], w.get(keys[..]));
      if data.None? {
        return Error;
      }
      var sent := filter.DropThenRun(hash, data.value);
      return Data(sent);
    }

    method Later(w: World) returns (r: Response)
      requires filter != null && kb.Valid() && Answers(w)
      modifies this, filter, kb, kb.buffer
      ensures kb.Valid() && filter == old(filter) && (kb.buffer == old(kb.buffer) || fresh(kb.buffer))
      ensures LaterNext(Cfg(), old(State()), w, r, State())
    {
      tid := w.receivedId;
      if w.changed.None? {
        return Error;
      }
      ghost var s := old(State());
      var outcome, keys, t := KeysForClient(w);
      if outcome != Updated {
        r := Error;
      } else if |keys| == 0 {
        r := Again;
      } else {
        r := ReadAndSend(w, keys);
      }
      assert Refreshes(Cfg(), s, w, outcome, t, r, State());
    }

    /** Update the builder, and list the keys that are new or reported. */
    method KeysForClient(w: World) returns (outcome: Outcome, keys: seq<Key>, ghost t: Trace)
      requires kb.Valid() && w.changed.Some?
      modifies kb, kb.buffer
      ensures kb.Valid() && (kb.buffer == old(kb.buffer) || fresh(kb.buffer))
      ensures EndsWith(kb.bodies, w.provider, outcome, t)
      ensures outcome != Updated ==> kb.Contents() == []
      ensures outcome == Updated ==>
        && (forall x :: x in kb.Contents() <==> Built(t.levels, x))
        && keys == KeysToRead(old(kb.Contents()), kb.Contents(), Elements(w.changed.value))
    {
      var oldKeys, newKeys;
      oldKeys, outcome, newKeys, t := KeysAcrossUpdate(kb, w.provider);
      if outcome != Updated {
        return outcome, [], t;
      }
      keys := KeysDiff(oldKeys[..], newKeys[..]);
      keys := AppendChanged(oldKeys[..], w.changed.value, keys);
    }

    method ReadAndSend(w: World, keys: seq<Key>) returns (r: Response)
      requires filter != null && Answers(w)
      modifies filter
      ensures Sends(Cfg(), old(filter.history), w, keys, r, Some(filter.history))
    {
      var data := RestrictedData(w.restrict, keys, w.get(keys));
      if data.None? {
        return Error;
      }
      var sent := filter.DropThenRun(hash, data.value);
      return Data(sent);
    }

    /** `Next`, given what the world answers to it and to its tail calls. */
    method Next(ws: seq<World>) returns (r: Response)
      requires kb.Valid() && forall w :: w in ws ==> Answers(w)
      modifies this, filter, kb, kb.buffer
      ensures kb.Valid() && NextIs(Cfg(), old(State()), ws, r, State())
      decreases |ws|
    {
      if |ws| == 0 {
        return Again;
      }
      assert ws[0] in ws;
      ghost var s := State();
      if filter == null {
        r := First(ws[0]);
      } else {
        r := Later(ws[0]);
      }
      ghost var mid := State();
      assert NextOnce(Cfg(), s, ws[0], r, mid);
      if r == Again {
        r := Next(ws[1..]);
        assert NextIs(Cfg(), mid, ws[1..], r, State());
      }
    }
  }

  /** The handler's set-up: the keys are built for the first time, with the topic id taken before. */
  method Connect(ghost restricts: Restriction, hash: Hash, bodies: seq<Body>, provider: Provider, tid: nat)
    returns (r: Outcome, conn: Connection?, ghost t: Trace)
    ensures EndsWith(bodies, provider, r, t)
    ensures r == Updated <==> conn != null
    ensures conn != null ==>
      && fresh(conn) && conn.kb.Valid() && conn.Cfg() == Config(restricts, hash, bodies)
      && conn.State() == Conn(tid, conn.kb.Contents(), None)
      && forall x :: x in conn.kb.Contents() <==> Built(t.levels, x)
  {
    var kb := new Builder(bodies);
    conn := null;
    r, t := kb.Update(provider);
    if r == Updated {
      conn := new Connection(restricts, hash, kb, tid);
    }
  }
}
