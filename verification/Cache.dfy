/** The cache object: the lock-protected sections as they change its maps in place. */
module CacheObject {
  import opened Values
  import opened CacheSpec

  class Cache {
    var data: map<Key, Raw>
    var pending: map<Key, Chan>
    var closed: set<Chan>
    var made: nat

    ghost function State(): CacheState
      reads this
    {
      CacheState(data, pending, closed, made)
    }

    constructor ()
      ensures State() == EMPTY && Valid(State())
    {
      data, pending, closed, made := map[], map[], {}, 0;
    }

    method KeyStateOf(key: Key) returns (st: KeyState)
      ensures st == StateOf(State(), key)
    {
      var dataOk, pendingOk := key in data, key in pending;
      if dataOk {
        return if pendingOk then Invalid else Exist;
      }
      return if pendingOk then Pending else NotExist;
    }

    /** Closing a channel twice panics in Go: the precondition rules that out. */
    method Close(ch: Chan)
      requires ch !in closed
      modifies this`closed
      ensures closed == old(closed) + {ch}
    {
      closed := closed + {ch};
    }

    method Set(key: Key, value: Raw)
      requires Valid(State())
      modifies this
      ensures Valid(State())
      ensures State() == Assign(old(State()), map[key := value])
    {
      AssignValid(State(), map[key := value]);
      AssignOne(State(), key, value);
      data := data[key := Normalize(value)];
      Release(key);
    }

    /** Close and delete the pending channel of a key, if there is one. */
    method Release(key: Key)
      requires key in pending ==> pending[key] !in closed
      modifies this`pending, this`closed
      ensures pending == old(pending) - {key}
      ensures closed == old(closed) + Chans(old(pending), {key})
    {
      if key in pending {
        Close(pending[key]);
        pending := pending - {key};
      }
    }

    method NotExistToPending(keys: seq<Key>) returns (missing: seq<Key>)
      requires Valid(State())
      modifies this
      ensures Valid(State())
      ensures (State(), missing) == CacheSpec.NotExistToPending(old(State()), keys)
    {
      missing := [];
      for i := 0 to |keys|
        invariant Valid(State())
        invariant (State(), missing) == CacheSpec.NotExistToPending(old(State()), keys[..i])
      {
        assert keys[..i + 1][..i] == keys[..i];
        var isMissing := PendKey(keys[i]);
        if isMissing {
          missing := missing + [keys[i]];
        }
      }
      assert keys[..|keys|] == keys;
    }

    /** The body of that loop: a key that does not exist gets a channel of its own. */
    method PendKey(key: Key) returns (isMissing: bool)
      requires Valid(State())
      modifies this
      ensures Valid(State())
      ensures isMissing == (StateOf(old(State()), key) == NotExist)
      ensures State() == if isMissing then Pend(old(State()), key) else old(State())
    {
      var st := KeyStateOf(key);
      if st == NotExist {
        PendValid(State(), key);
        pending := pending[key := made];
        made := made + 1;
        return true;
      }
      return false;
    }

    method SetIfExist(update: map<Key, Raw>)
      requires Valid(State())
      modifies this
      ensures Valid(State())
      ensures State() == CacheSpec.SetIfExist(old(State()), update)
    {
      ghost var c := State();
      var todo := update.Keys;
      AssignStart(c, update, Known(c));
      while todo != {}
        invariant todo <= update.Keys
        invariant Valid(State())
        invariant State() == AssignButFor(c, update, Known(c), todo)
        decreases todo
      {
        var key :| key in todo;
        SetKnownKey(key, update[key]);
        AssignPick(c, update, Known(c), todo, key);
        todo := todo - {key};
      }
    }

    /** The body of `SetIfExist`'s loop. */
    method SetKnownKey(key: Key, value: Raw)
      requires Valid(State())
      modifies this
      ensures Valid(State())
      ensures State()
           == if StateOf(old(State()), key) == NotExist then old(State())
              else Assign(old(State()), map[key := value])
    {
      var st := KeyStateOf(key);
      if st == NotExist {
        return;
      }
      Set(key, value);
    }

    /** The locked part of `fetchMissing`, with its deferred clean-up. */
    method FinishFetch(keys: seq<Key>, answer: Option<map<Key, Raw>>) returns (ok: bool)
      requires Valid(State())
      modifies this
      ensures Valid(State())
      ensures ok == answer.Some?
      ensures State() == CacheSpec.FinishFetch(old(State()), keys, answer)
    {
      if answer.Some? {
        FillAnswered(answer.value);
        FillMissing(keys);
        FillTwice(old(State()), keys, answer.value);
        NothingPendingAfterFill(Fill(old(State()), answer.value), keys);
        NothingToDrop(State(), Elements(keys));
      }
      ClosePending(keys);
      return answer.Some?;
    }

    method FillAnswered(response: map<Key, Raw>)
      requires Valid(State())
      modifies this
      ensures Valid(State())
      ensures State() == Fill(old(State()), response)
    {
      ghost var c := State();
      var todo := response.Keys;
      AssignStart(c, response, c.pending.Keys);
      while todo != {}
        invariant todo <= response.Keys
        invariant Valid(State())
        invariant State() == AssignButFor(c, response, c.pending.Keys, todo)
        decreases todo
      {
        var key :| key in todo;
        FillKey(key, response[key]);
        AssignPick(c, response, c.pending.Keys, todo, key);
        todo := todo - {key};
      }
    }

    method FillMissing(keys: seq<Key>)
      requires Valid(State())
      modifies this
      ensures Valid(State())
      ensures State() == Fill(old(State()), Nils(keys))
    {
      ghost var c := State();
      AssignNone(c, Nils(keys), c.pending.Keys);
      for i := 0 to |keys|
        invariant Valid(State())
        invariant State() == AssignSeen(c, Nils(keys), c.pending.Keys, Elements(keys[..i]))
      {
        FillMissingNext(c, keys, i);
        FillKey(keys[i], Nil);
      }
      assert keys[..|keys|] == keys;
      assert Elements(keys) == Nils(keys).Keys;
    }

    /** The body of both loops: only a pending key is set. */
    method FillKey(key: Key, value: Raw)
      requires Valid(State())
      modifies this
      ensures Valid(State())
      ensures State()
           == if StateOf(old(State()), key) == Pending then Assign(old(State()), map[key := value])
              else old(State())
    {
      var st := KeyStateOf(key);
      if st == Pending {
        Set(key, value);
      }
    }

    method ClosePending(keys: seq<Key>)
      requires Valid(State())
      modifies this
      ensures Valid(State())
      ensures State() == Drop(old(State()), Elements(keys))
    {
      ghost var c := State();
      NothingToDrop(c, {});
      for i := 0 to |keys|
        invariant Valid(State())
        invariant State() == Drop(c, Elements(keys[..i]))
      {
        DropKey(keys[i]);
        DropMerge(c, Elements(keys[..i]), {keys[i]});
        ElementsNext(keys, i);
      }
      assert keys[..|keys|] == keys;
    }

    method DropKey(key: Key)
      requires Valid(State())
      modifies this
      ensures Valid(State())
      ensures State() == Drop(old(State()), {key})
    {
      DropValid(State(), {key});
      var st := KeyStateOf(key);
      if st == Pending {
        Release(key);
      } else {
        NothingToDrop(State(), {key});
      }
    }
  }

  /** Store the entries whose key is pending. */
  function Fill(c: CacheState, m: map<Key, Raw>): CacheState {
    Assign(c, Restrict(m, c.pending.Keys))
  }

  function Nils(keys: seq<Key>): map<Key, Raw> {
    map k | k in keys :: Nil
  }

  lemma {:induction false} ElementsNext(keys: seq<Key>, i: nat)
    requires i < |keys|
    ensures Elements(keys[..i + 1]) == Elements(keys[..i]) + {keys[i]}
  {
    assert keys[..i + 1] == keys[..i] + [keys[i]];
  }

  lemma {:induction false} DropMerge(c: CacheState, a: set<Key>, b: set<Key>)
    ensures Drop(Drop(c, a), b) == Drop(c, a + b)
  {
    ChansMerge(c.pending, a, b);
  }

  function Known(c: CacheState): set<Key> {
    c.data.Keys + c.pending.Keys
  }

  /** A loop over `m` that stores the keys in `ks`, after it met the keys in `seen`. */
  function AssignSeen(c: CacheState, m: map<Key, Raw>, ks: set<Key>, seen: set<Key>): CacheState {
    Assign(c, Restrict(m, ks * seen))
  }

  lemma {:induction false} AssignNone(c: CacheState, m: map<Key, Raw>, ks: set<Key>)
    ensures AssignSeen(c, m, ks, {}) == c
    ensures AssignSeen(c, m, ks, m.Keys) == Assign(c, Restrict(m, ks))
  {
    assert Restrict(m, ks * {}) == map[];
    assert Restrict(m, ks * m.Keys) == Restrict(m, ks);
  }

  lemma {:induction false} RestrictNext(m: map<Key, Raw>, ks: set<Key>, key: Key)
    requires key in m
    ensures Restrict(m, ks + {key}) == Restrict(m, ks) + map[key := m[key]]
  {
  }

  lemma {:induction false} UnseenKeepsState(c: CacheState, m: map<Key, Raw>, ks: set<Key>, seen: set<Key>, key: Key)
    requires key !in seen
    ensures StateOf(AssignSeen(c, m, ks, seen), key) == StateOf(c, key)
  {
  }

  lemma {:induction false} AssignNext(c: CacheState, m: map<Key, Raw>, ks: set<Key>, seen: set<Key>, key: Key)
    requires key in m
    ensures key in ks ==>
      Assign(AssignSeen(c, m, ks, seen), map[key := m[key]]) == AssignSeen(c, m, ks, seen + {key})
    ensures key !in ks || key in seen ==> AssignSeen(c, m, ks, seen) == AssignSeen(c, m, ks, seen + {key})
  {
    if key in ks {
      RestrictNext(m, ks * seen, key);
      AssignMerge(c, Restrict(m, ks * seen), map[key := m[key]]);
      assert ks * (seen + {key}) == ks * seen + {key};
    }
    if key !in ks || key in seen {
      assert ks * (seen + {key}) == ks * seen;
    }
  }

  /** The same loop in an arbitrary order, with the keys in `todo` still ahead. */
  function AssignButFor(c: CacheState, m: map<Key, Raw>, ks: set<Key>, todo: set<Key>): CacheState {
    AssignSeen(c, m, ks, m.Keys - todo)
  }

  lemma {:induction false} AssignStart(c: CacheState, m: map<Key, Raw>, ks: set<Key>)
    ensures AssignButFor(c, m, ks, m.Keys) == c
    ensures AssignButFor(c, m, ks, {}) == Assign(c, Restrict(m, ks))
  {
    AssignNone(c, m, ks);
    assert m.Keys - m.Keys == {} && m.Keys - {} == m.Keys;
  }

  lemma {:induction false} AssignPick(c: CacheState, m: map<Key, Raw>, ks: set<Key>, todo: set<Key>, key: Key)
    requires key in todo && todo <= m.Keys
    ensures StateOf(AssignButFor(c, m, ks, todo), key) == StateOf(c, key)
    ensures AssignButFor(c, m, ks, todo - {key})
         == if key in ks then Assign(AssignButFor(c, m, ks, todo), map[key := m[key]])
            else AssignButFor(c, m, ks, todo)
  {
    UnseenKeepsState(c, m, ks, m.Keys - todo, key);
    AssignNext(c, m, ks, m.Keys - todo, key);
    assert m.Keys - (todo - {key}) == m.Keys - todo + {key};
  }

  lemma {:induction false} FillMissingNext(c: CacheState, keys: seq<Key>, i: nat)
    requires i < |keys| && c.data.Keys !! c.pending.Keys
    ensures var now := AssignSeen(c, Nils(keys), c.pending.Keys, Elements(keys[..i]));
      AssignSeen(c, Nils(keys), c.pending.Keys, Elements(keys[..i + 1]))
      == if StateOf(now, keys[i]) == Pending then Assign(now, map[keys[i] := Nil]) else now
  {
    AssignNext(c, Nils(keys), c.pending.Keys, Elements(keys[..i]), keys[i]);
    ElementsNext(keys, i);
    var key := keys[i];
    var now := AssignSeen(c, Nils(keys), c.pending.Keys, Elements(keys[..i]));
    if key !in Elements(keys[..i]) {
      UnseenKeepsState(c, Nils(keys), c.pending.Keys, Elements(keys[..i]), key);
    } else {
      assert key in c.pending ==> key in Restrict(Nils(keys), c.pending.Keys * Elements(keys[..i]));
      assert key !in now.pending;
    }
  }

  lemma {:induction false} AssignOne(c: CacheState, key: Key, value: Raw)
    ensures Assign(c, map[key := value])
         == c.(data := c.data[key := Normalize(value)], pending := c.pending - {key},
               closed := c.closed + Chans(c.pending, {key}))
  {
    assert (map[key := value]).Keys == {key};
  }

  lemma {:induction false} NothingToDrop(c: CacheState, ks: set<Key>)
    requires c.pending.Keys !! ks
    ensures Drop(c, ks) == c
  {
    assert c.pending - ks == c.pending;
    assert Chans(c.pending, ks) == {};
  }

  /** The two loops of `fetchMissing` together install every answered or requested key. */
  lemma {:induction false} FillTwice(c: CacheState, keys: seq<Key>, response: map<Key, Raw>)
    ensures Fill(Fill(c, response), Nils(keys)) == Assign(c, Installed(c, keys, response))
  {
    var first := Restrict(response, c.pending.Keys);
    var left := Assign(c, first).pending.Keys;
    assert left == c.pending.Keys - response.Keys;
    AssignMerge(c, first, Restrict(Nils(keys), left));
    InstalledInTwo(c, keys, response);
  }

  lemma {:induction false} NothingPendingAfterFill(c: CacheState, keys: seq<Key>)
    ensures Fill(c, Nils(keys)).pending.Keys !! Elements(keys)
  {
  }

  lemma {:induction false} InstalledInTwo(c: CacheState, keys: seq<Key>, response: map<Key, Raw>)
    ensures Restrict(response, c.pending.Keys) + Restrict(Nils(keys), c.pending.Keys - response.Keys)
         == Installed(c, keys, response)
  {
  }
}
