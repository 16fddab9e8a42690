/**
 * The value-level meaning of the cache's lock-protected sections. Map iteration
 * order does not appear here: each section is a function of the cache before it.
 */
module CacheSpec {
  import opened Values

  type Chan = nat

  datatype KeyState = NotExist | Exist | Pending | Invalid

  /**
   * `made` channels were created so far; `closed` holds those that were closed.
   */
  datatype CacheState = CacheState(
    data: map<Key, Raw>,
    pending: map<Key, Chan>,
    closed: set<Chan>,
    made: nat)

  const EMPTY := CacheState(map[], map[], {}, 0)

  function StateOf(c: CacheState, k: Key): KeyState {
    if k in c.data then (if k in c.pending then Invalid else Exist)
    else if k in c.pending then Pending
    else NotExist
  }

  /** The channels of the given keys. */
  function Chans(p: map<Key, Chan>, ks: set<Key>): set<Chan> {
    set k | k in p && k in ks :: p[k]
  }

  /**
   * No key is both cached and pending; pending keys have channels of their own; and a
   * channel is open exactly while some key is pending on it.
   */
  ghost predicate Valid(c: CacheState) {
    && c.data.Keys !! c.pending.Keys
    && (forall k, l :: k in c.pending && l in c.pending && c.pending[k] == c.pending[l] ==> k == l)
    && (forall ch :: ch in c.closed ==> ch < c.made)
    && (forall k :: k in c.pending ==> c.pending[k] < c.made && c.pending[k] !in c.closed)
    && (forall ch: nat :: ch < c.made && ch !in c.closed ==> ch in c.pending.Values)
  }

  /** Store every entry of `m`, closing the channel of each key that was pending. */
  function Assign(c: CacheState, m: map<Key, Raw>): CacheState {
    CacheState(
      c.data + map k | k in m :: Normalize(m[k]),
      c.pending - m.Keys,
      c.closed + Chans(c.pending, m.Keys),
      c.made)
  }

  function Restrict(m: map<Key, Raw>, ks: set<Key>): map<Key, Raw> {
    map k | k in m && k in ks :: m[k]
  }

  /** `SetIfExist`: update the keys that are cached or pending. */
  function SetIfExist(c: CacheState, m: map<Key, Raw>): CacheState {
    Assign(c, Restrict(m, c.data.Keys + c.pending.Keys))
  }

  /** Give up on the pending keys among `ks`. */
  function Drop(c: CacheState, ks: set<Key>): CacheState {
    c.(pending := c.pending - ks, closed := c.closed + Chans(c.pending, ks))
  }

  /** The entries that a successful fetch installs: a key without an answer is nil. */
  function Installed(c: CacheState, keys: seq<Key>, response: map<Key, Raw>): map<Key, Raw> {
    map k | k in c.pending && (k in keys || k in response) :: Lookup(response, k)
  }

  /** The locked part of `fetchMissing`; no answer means that the fetch failed. */
  function FinishFetch(c: CacheState, keys: seq<Key>, answer: Option<map<Key, Raw>>): CacheState {
    match answer
    case None => Drop(c, Elements(keys))
    case Some(response) => Assign(c, Installed(c, keys, response))
  }

  /** `notExistToPending`: the new cache and the keys that became pending, in order. */
  function NotExistToPending(c: CacheState, keys: seq<Key>): (CacheState, seq<Key>) {
    if keys == [] then (c, [])
    else
      var k := keys[|keys| - 1];
      var (c', missing) := NotExistToPending(c, keys[..|keys| - 1]);
      if StateOf(c', k) == NotExist then
        (Pend(c', k), missing + [k])
      else (c', missing)
  }

  lemma {:induction false} OneMissing(c: CacheState, k: Key)
    requires StateOf(c, k) == NotExist
    ensures NotExistToPending(c, [k]) == (Pend(c, k), [k])
  {
    assert [k][..|[k]| - 1] == [];
    assert NotExistToPending(c, []) == (c, []) && [] + [k] == [k];
  }

  /** What is stored: the document null becomes nil, every other value stays. */
  lemma {:induction false} AssignStores(c: CacheState, m: map<Key, Raw>, k: Key)
    ensures k in m ==> k in Assign(c, m).data && Assign(c, m).data[k] == if m[k] == Doc(Null) then Nil else m[k]
    ensures k !in m ==> (k in Assign(c, m).data <==> k in c.data)
    ensures k !in m && k in c.data ==> Assign(c, m).data[k] == c.data[k]
  {
  }

  /** No cached value is the document null. */
  ghost predicate NoNull(c: CacheState) {
    forall k :: k in c.data ==> c.data[k] != Doc(Null)
  }

  lemma {:induction false} AssignNoNull(c: CacheState, m: map<Key, Raw>)
    requires NoNull(c)
    ensures NoNull(Assign(c, m))
  {
    forall k | k in Assign(c, m).data ensures Assign(c, m).data[k] != Doc(Null) {
      AssignStores(c, m, k);
    }
  }

  lemma {:induction false} AssignValid(c: CacheState, m: map<Key, Raw>)
    requires Valid(c)
    ensures Valid(Assign(c, m))
  {
    var c' := Assign(c, m);
    forall ch: nat | ch < c'.made && ch !in c'.closed
      ensures ch in c'.pending.Values
    {
      var k :| k in c.pending && c.pending[k] == ch;
      assert c'.pending[k] == ch;
    }
  }

  lemma {:induction false} DropValid(c: CacheState, ks: set<Key>)
    requires Valid(c)
    ensures Valid(Drop(c, ks))
  {
    var c' := Drop(c, ks);
    forall ch: nat | ch < c'.made && ch !in c'.closed
      ensures ch in c'.pending.Values
    {
      var k :| k in c.pending && c.pending[k] == ch;
      assert c'.pending[k] == ch;
    }
  }

  /** `notExistToPending` moves keys from the not-exist state to pending and nothing else. */
  lemma {:induction false} NotExistToPendingMoves(c: CacheState, keys: seq<Key>)
    requires c.data.Keys !! c.pending.Keys
    ensures var (c', missing) := NotExistToPending(c, keys);
      && c'.data == c.data && c'.closed == c.closed
      && c'.pending.Keys == c.pending.Keys + Elements(missing)
      && Elements(missing) == Elements(keys) - c.data.Keys - c.pending.Keys
  {
    if keys != [] {
      var k := keys[|keys| - 1];
      var rest := keys[..|keys| - 1];
      assert keys == rest + [k];
      assert Elements(keys) == Elements(rest) + {k};
      NotExistToPendingMoves(c, rest);
      var (c1, missing1) := NotExistToPending(c, rest);
      if StateOf(c1, k) == NotExist {
        assert Elements(missing1 + [k]) == Elements(missing1) + {k};
      }
    }
  }

  /** Each missing key is listed once, although a request may list a key many times. */
  lemma {:induction false} MissingOnce(c: CacheState, keys: seq<Key>)
    requires c.data.Keys !! c.pending.Keys
    ensures NoDuplicates(NotExistToPending(c, keys).1)
  {
    if keys != [] {
      MissingOnce(c, keys[..|keys| - 1]);
      NotExistToPendingMoves(c, keys[..|keys| - 1]);
    }
  }

  /** Old pending keys keep their channel; new ones get channels never used before. */
  lemma {:induction false} NotExistToPendingChans(c: CacheState, keys: seq<Key>)
    ensures var (c', missing) := NotExistToPending(c, keys);
      && c.made <= c'.made
      && c.pending.Keys <= c'.pending.Keys
      && (forall k :: k in c.pending ==> c'.pending[k] == c.pending[k])
      && (forall k :: k in c'.pending && k !in c.pending ==> c'.pending[k] >= c.made)
  {
    if keys != [] {
      NotExistToPendingChans(c, keys[..|keys| - 1]);
    }
  }

  /** The cache with one more pending key, on a channel of its own. */
  function Pend(c: CacheState, k: Key): CacheState {
    c.(pending := c.pending[k := c.made], made := c.made + 1)
  }

  lemma {:induction false} PendCovers(c: CacheState, k: Key, ch: Chan)
    requires Valid(c) && StateOf(c, k) == NotExist
    requires ch < c.made + 1 && ch !in c.closed
    ensures ch in Pend(c, k).pending.Values
  {
    var p := Pend(c, k).pending;
    if ch == c.made {
      assert p[k] == ch;
    } else {
      var l :| l in c.pending && c.pending[l] == ch;
      assert p[l] == ch;
    }
  }

  lemma {:induction false} PendValid(c: CacheState, k: Key)
    requires Valid(c) && StateOf(c, k) == NotExist
    ensures Valid(Pend(c, k))
  {
    forall ch: nat | ch < c.made + 1 && ch !in c.closed ensures ch in Pend(c, k).pending.Values {
      PendCovers(c, k, ch);
    }
  }

  lemma {:induction false} NotExistToPendingValid(c: CacheState, keys: seq<Key>)
    requires Valid(c)
    ensures Valid(NotExistToPending(c, keys).0)
  {
    if keys != [] {
      var (c1, _) := NotExistToPending(c, keys[..|keys| - 1]);
      NotExistToPendingValid(c, keys[..|keys| - 1]);
      if StateOf(c1, keys[|keys| - 1]) == NotExist {
        PendValid(c1, keys[|keys| - 1]);
      }
    }
  }

  /** Batching is invisible: one merged update equals the two updates one after the other. */
  lemma {:induction false} SetIfExistMerge(c: CacheState, a: map<Key, Raw>, b: map<Key, Raw>)
    ensures SetIfExist(SetIfExist(c, a), b) == SetIfExist(c, a + b)
  {
    var known := c.data.Keys + c.pending.Keys;
    var c1 := SetIfExist(c, a);
    assert c1.data.Keys + c1.pending.Keys == known;
    RestrictMerge(a, b, known);
    AssignMerge(c, Restrict(a, known), Restrict(b, known));
  }

  lemma {:induction false} RestrictMerge(a: map<Key, Raw>, b: map<Key, Raw>, ks: set<Key>)
    ensures Restrict(a + b, ks) == Restrict(a, ks) + Restrict(b, ks)
  {
  }

  lemma {:induction false} AssignMerge(c: CacheState, a: map<Key, Raw>, b: map<Key, Raw>)
    ensures Assign(Assign(c, a), b) == Assign(c, a + b)
  {
    assert (a + b).Keys == a.Keys + b.Keys;
    ChansMerge(c.pending, a.Keys, b.Keys);
    NormalizedMerge(c.data, a, b);
  }

  lemma {:induction false} ChansMerge(p: map<Key, Chan>, a: set<Key>, b: set<Key>)
    ensures Chans(p, a) + Chans(p - a, b) == Chans(p, a + b)
    ensures p - a - b == p - (a + b)
  {
    forall k | k in p && k in b && k !in a
      ensures p[k] in Chans(p - a, b)
    {
      assert (p - a)[k] == p[k];
    }
  }

  lemma {:induction false} NormalizedMerge(d: map<Key, Raw>, a: map<Key, Raw>, b: map<Key, Raw>)
    ensures d + (map k | k in a :: Normalize(a[k])) + (map k | k in b :: Normalize(b[k]))
         == d + map k | k in a + b :: Normalize((a + b)[k])
  {
  }

  /**
   * A channel is closed exactly when its key leaves `pending`: whatever a valid section
   * closes was open before, and belonged to a key that is no longer pending.
   */
  lemma {:induction false} ClosedWhenLeaving(c: CacheState, c': CacheState, k: Key)
    requires Valid(c) && Valid(c')
    requires k in c.pending
    requires c.made <= c'.made && c.closed <= c'.closed
    requires forall l :: l in c'.pending ==>
      (l in c.pending && c'.pending[l] == c.pending[l]) || c'.pending[l] >= c.made
    ensures c.pending[k] in c'.closed <==> !(k in c'.pending && c'.pending[k] == c.pending[k])
  {
    var ch := c.pending[k];
    if ch !in c'.closed {
      var l :| l in c'.pending && c'.pending[l] == ch;
    }
  }
}
