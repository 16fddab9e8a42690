/** The keys builder: a worklist that refines the breadth-first builds of a request. */
module KeysBuilder {
  import opened Values
  import opened Fields
  import opened Request

  // ---- Writing descriptions into the worklist ----

  /** The fields that a loop over a fields map has visited. */
  ghost function Without(fields: map<string, Desc>, todo: set<string>): map<string, Desc> {
    map f | f in fields && f !in todo :: fields[f]
  }

  /** `fieldsMap.keys`. */
  method PutFields(cid: string, fields: map<string, Desc>, process: Level) returns (l: Level)
    ensures Puts(process, l, Generic(fields), "", [cid])
  {
    l := process;
    var todo := fields.Keys;
    while todo != {}
      invariant todo <= fields.Keys
      invariant Puts(process, l, Generic(Without(fields, todo)), "", [cid])
      decreases todo
    {
      var field :| field in todo;
      PutsField(process, l, cid, fields, todo, field);
      l := l[GenericKey(cid, field) := fields[field]];
      todo := todo - {field};
    }
    assert Without(fields, todo) == fields;
  }

  lemma {:induction false} FieldWrites(cid: string, fields: map<string, Desc>, todo: set<string>, field: string, k: Key,
                                       child: Desc)
    requires field in todo && todo <= fields.Keys
    ensures Writes(Generic(Without(fields, todo - {field})), "", [cid], k, child)
        <==> Writes(Generic(Without(fields, todo)), "", [cid], k, child)
             || (k == GenericKey(cid, field) && child == fields[field])
  {
    assert cid in [cid];
    assert Without(fields, todo - {field}) == Without(fields, todo)[field := fields[field]];
  }

  lemma {:induction false} PutsField(l: Level, l1: Level, cid: string, fields: map<string, Desc>, todo: set<string>,
                                     field: string)
    requires field in todo && todo <= fields.Keys
    requires Puts(l, l1, Generic(Without(fields, todo)), "", [cid])
    ensures Puts(l, l1[GenericKey(cid, field) := fields[field]], Generic(Without(fields, todo - {field})), "", [cid])
  {
    var d, d' := Generic(Without(fields, todo)), Generic(Without(fields, todo - {field}));
    forall k, child ensures Writes(d', "", [cid], k, child)
                        <==> Writes(d, "", [cid], k, child) || (k == GenericKey(cid, field) && child == fields[field]) {
      FieldWrites(cid, fields, todo, field, k, child);
    }
    var l2 := l1[GenericKey(cid, field) := fields[field]];
    assert Writes(d', "", [cid], GenericKey(cid, field), fields[field]);
    forall k | k in l2 && !Written(d', "", [cid], k) ensures k in l && l2[k] == l[k] {
      assert !Written(d, "", [cid], k);
    }
  }

  /** `body.keys`. */
  method PutBody(b: Body, process: Level) returns (l: Level)
    ensures Puts(process, l, Generic(b.fields), "", CollectionIds(b))
  {
    l := process;
    ghost var cids := CollectionIds(b);
    NothingPut(process, Generic(b.fields), "");
    for i := 0 to |b.ids|
      invariant Puts(process, l, Generic(b.fields), "", cids[..i])
    {
      ghost var before := l;
      l := PutFields(CollectionId(b.collection, b.ids[i]), b.fields, l);
      PutsMore(process, before, l, Generic(b.fields), "", cids[..i], [cids[i]]);
      assert cids[..i] + [cids[i]] == cids[..i + 1];
    }
    assert cids[..|b.ids|] == cids;
  }

  method Start(bodies: seq<Body>) returns (l: Level)
    ensures IsStart(bodies, l)
  {
    l := map[];
    for i := 0 to |bodies|
      invariant IsStart(bodies[..i], l)
    {
      ghost var before := l;
      l := PutBody(bodies[i], l);
      StartNext(bodies, i, before, l);
    }
    assert bodies[..|bodies|] == bodies;
  }

  lemma {:induction false} StartNext(bodies: seq<Body>, i: nat, l: Level, l': Level)
    requires i < |bodies| && IsStart(bodies[..i], l)
    requires Puts(l, l', Generic(bodies[i].fields), "", CollectionIds(bodies[i]))
    ensures IsStart(bodies[..i + 1], l')
  {
    var before, after := bodies[..i], bodies[..i + 1];
    assert after == before + [bodies[i]];
    forall k | k in l' ensures Wins(after, k, l'[k]) {
      if Written(Generic(bodies[i].fields), "", CollectionIds(bodies[i]), k) {
        LastBodyWins(before, bodies[i], k, l'[k]);
      } else {
        EarlierBodyWins(before, bodies[i], k, l[k]);
      }
    }
    forall k, d | Requests(after, k, d) ensures k in l' {
      RequestsMore(bodies, i, k, d);
      assert BodyRequests(bodies[i], k, d) ==> Writes(Generic(bodies[i].fields), "", CollectionIds(bodies[i]), k, d);
    }
  }

  lemma {:induction false} LastBodyWins(before: seq<Body>, b: Body, k: Key, d: Desc)
    requires BodyRequests(b, k, d)
    ensures Wins(before + [b], k, d)
  {
    assert WinsAt(before + [b], |before|, k, d);
  }

  lemma {:induction false} EarlierBodyWins(before: seq<Body>, b: Body, k: Key, d: Desc)
    requires Wins(before, k, d) && !Written(Generic(b.fields), "", CollectionIds(b), k)
    ensures Wins(before + [b], k, d)
  {
    var after := before + [b];
    var i :| 0 <= i < |before| && WinsAt(before, i, k, d);
    forall j, e | i < j < |after| ensures !BodyRequests(after[j], k, e) {
      assert j < |before| ==> after[j] == before[j];
    }
    assert WinsAt(after, i, k, d);
  }

  lemma {:induction false} RequestsMore(bodies: seq<Body>, i: nat, k: Key, d: Desc)
    requires i < |bodies|
    ensures Requests(bodies[..i + 1], k, d) <==> Requests(bodies[..i], k, d) || BodyRequests(bodies[i], k, d)
  {
    assert bodies[..i + 1] == bodies[..i] + [bodies[i]];
    RequestsAppend(bodies[..i], bodies[i], k, d);
  }

  lemma {:induction false} RequestsAppend(before: seq<Body>, b: Body, k: Key, d: Desc)
    ensures Requests(before + [b], k, d) <==> Requests(before, k, d) || BodyRequests(b, k, d)
  {
    var after := before + [b];
    assert after[|before|] == b;
    assert forall j :: 0 <= j < |before| ==> after[j] == before[j];
  }

  // ---- Following one description ----

  /** How `Update` fails: the data could not be loaded, or a value has the wrong form. */
  datatype Outcome = Updated | LoadFailed | ValueError(key: Key) | DecodeError(key: Key)

  /** `description.keys`. */
  method FollowOne(d: Desc, key: Key, v: Raw, process: Level) returns (r: Outcome, l: Level)
    requires !d.Leaf? && v != Nil
    ensures r == match ReadValue(d, v) {
                   case Value(_) => Updated
                   case WrongType => ValueError(key)
                   case NotJson => DecodeError(key)
                 }
    ensures r == Updated ==> Puts(process, l, d, key, ReadValue(d, v).value)
  {
    l := process;
    match ReadValue(d, v)
    case WrongType => return ValueError(key), l;
    case NotJson => return DecodeError(key), l;
    case Value(words) =>
      NothingPut(process, d, key);
      for i := 0 to |words|
        invariant Puts(process, l, d, key, words[..i])
      {
        ghost var before := l;
        l := PutWord(d, key, words[i], l);
        PutsMore(process, before, l, d, key, words[..i], [words[i]]);
        assert words[..i] + [words[i]] == words[..i + 1];
      }
      assert words[..|words|] == words;
      return Updated, l;
  }

  method PutWord(d: Desc, key: Key, word: string, process: Level) returns (l: Level)
    requires !d.Leaf?
    ensures Puts(process, l, d, key, [word])
  {
    if d.Template? {
      l := process[ReplaceFirst(key, word) := d.values];
      assert word in [word];
      assert Writes(d, key, [word], ReplaceFirst(key, word), d.values);
    } else {
      l := PutFields(word, d.fields, process);
      SameFields(process, l, d, key, [word]);
    }
  }

  lemma {:induction false} SameFields(l: Level, l': Level, d: Desc, key: Key, words: seq<string>)
    requires HasFields(d) && Puts(l, l', Generic(d.fields), "", words)
    ensures Puts(l, l', d, key, words)
  {
    assert forall k, child :: Writes(d, key, words, k, child) <==> Writes(Generic(d.fields), "", words, k, child);
    forall k | k in l' && !Written(d, key, words, k) ensures k in l && l'[k] == l[k] {
      assert !Written(Generic(d.fields), "", words, k);
    }
  }

  // ---- Following a level ----

  /** Like `ReachedFrom`, for the keys that were followed already. */
  ghost predicate ReachedSoFar(l: Level, data: map<Key, Raw>, seen: set<Key>, k: Key, d: Desc) {
    exists p :: p in l && p in seen && Follows(l[p], p, Lookup(data, p), k, d)
  }

  ghost predicate NextSoFar(l: Level, data: map<Key, Raw>, seen: set<Key>, l': Level) {
    && (forall k :: k in l && k in seen ==> !Unreadable(l[k], Lookup(data, k)))
    && (forall k :: k in l' ==> ReachedSoFar(l, data, seen, k, l'[k]))
    && (forall k, d :: ReachedSoFar(l, data, seen, k, d) ==> k in l')
  }

  lemma {:induction false} NextAll(l: Level, data: map<Key, Raw>, l': Level)
    requires NextSoFar(l, data, l.Keys, l')
    ensures IsNext(l, data, l')
  {
    forall k | k in l' ensures ReachedFrom(l, data, k, l'[k]) {
      assert ReachedSoFar(l, data, l.Keys, k, l'[k]);
    }
    forall k, d ensures ReachedFrom(l, data, k, d) ==> k in l' {
      assert ReachedFrom(l, data, k, d) ==> ReachedSoFar(l, data, l.Keys, k, d);
    }
  }

  lemma {:induction false} ReachedMore(l: Level, data: map<Key, Raw>, seen: set<Key>, p: Key, k: Key, d: Desc)
    requires p in l
    ensures ReachedSoFar(l, data, seen + {p}, k, d)
        <==> ReachedSoFar(l, data, seen, k, d) || Follows(l[p], p, Lookup(data, p), k, d)
  {
  }

  /** A key without a value, or with a nil description, adds nothing. */
  lemma {:induction false} NextSkips(l: Level, data: map<Key, Raw>, seen: set<Key>, l': Level, p: Key)
    requires NextSoFar(l, data, seen, l') && p in l
    requires l[p].Leaf? || Lookup(data, p) == Nil
    ensures NextSoFar(l, data, seen + {p}, l')
  {
    forall k, d ensures ReachedSoFar(l, data, seen + {p}, k, d) <==> ReachedSoFar(l, data, seen, k, d) {
      ReachedMore(l, data, seen, p, k, d);
    }
  }

  lemma {:induction false} NextTakes(l: Level, data: map<Key, Raw>, seen: set<Key>, l': Level, l'': Level, p: Key)
    requires NextSoFar(l, data, seen, l') && p in l
    requires Lookup(data, p) != Nil && ReadValue(l[p], Lookup(data, p)).Value?
    requires Puts(l', l'', l[p], p, ReadValue(l[p], Lookup(data, p)).value)
    ensures NextSoFar(l, data, seen + {p}, l'')
  {
    var words := ReadValue(l[p], Lookup(data, p)).value;
    forall k | k in l'' ensures ReachedSoFar(l, data, seen + {p}, k, l''[k]) {
      ReachedMore(l, data, seen, p, k, l''[k]);
      if !Written(l[p], p, words, k) {
        assert ReachedSoFar(l, data, seen, k, l'[k]);
      }
    }
    forall k, d ensures ReachedSoFar(l, data, seen + {p}, k, d) ==> k in l'' {
      ReachedMore(l, data, seen, p, k, d);
    }
  }

  /** The second half of a round: follow every key of `processed`, in any order. */
  method FollowAll(process: Level, processed: set<Key>, data: map<Key, Raw>) returns (r: Outcome, l: Level)
    requires processed == set k | k in process && !process[k].Leaf?
    ensures r.Updated? || r.ValueError? || r.DecodeError?
    ensures r == Updated ==> IsNext(process, data, l)
    ensures r != Updated ==>
      && r.key in process && Unreadable(process[r.key], Lookup(data, r.key))
      && (r.ValueError? <==> ReadValue(process[r.key], Lookup(data, r.key)).WrongType?)
  {
    l := map[];
    var todo := processed;
    LeavesSkipped(process, data, process.Keys - todo);
    while todo != {}
      invariant todo <= processed
      invariant NextSoFar(process, data, process.Keys - todo, l)
      decreases todo
    {
      var key :| key in todo;
      assert process.Keys - (todo - {key}) == process.Keys - todo + {key};
      if Lookup(data, key) == Nil {
        NextSkips(process, data, process.Keys - todo, l, key);
      } else {
        ghost var before := l;
        r, l := FollowOne(process[key], key, Lookup(data, key), l);
        if r != Updated {
          return;
        }
        NextTakes(process, data, process.Keys - todo, before, l, key);
      }
      todo := todo - {key};
    }
    assert process.Keys - todo == process.Keys;
    NextAll(process, data, l);
    return Updated, l;
  }

  lemma {:induction false} LeavesSkipped(l: Level, data: map<Key, Raw>, seen: set<Key>)
    requires forall k :: k in seen && k in l ==> l[k].Leaf?
    ensures NextSoFar(l, data, seen, map[])
  {
  }

  // ---- The builder object ----

  ghost function LevelKeys(levels: seq<Level>): set<Key> {
    if levels == [] then {} else LevelKeys(levels[..|levels| - 1]) + levels[|levels| - 1].Keys
  }

  lemma {:induction false} LevelKeysAreBuilt(levels: seq<Level>, x: Key)
    ensures x in LevelKeys(levels) <==> Built(levels, x)
  {
    if levels != [] {
      var init := levels[..|levels| - 1];
      LevelKeysAreBuilt(init, x);
      if Built(init, x) {
        var i :| 0 <= i < |init| && x in init[i];
        assert x in levels[i];
      }
      if Built(levels, x) {
        var i :| 0 <= i < |levels| && x in levels[i];
        assert i < |init| ==> x in init[i];
      }
    }
  }

  lemma {:induction false} ListedIsBuilt(keys: seq<Key>, levels: seq<Level>)
    requires Elements(keys) == LevelKeys(levels)
    ensures forall x :: x in keys <==> Built(levels, x)
  {
    forall x ensures x in keys <==> Built(levels, x) {
      LevelKeysAreBuilt(levels, x);
      assert x in keys <==> x in Elements(keys);
    }
  }

  /** The data provider: what it answers to its first, second, ... request, for the keys asked. */
  type Provider = (nat, seq<Key>) -> Option<map<Key, Raw>>

  /** What an `Update` did: the keys it asked for, the data it got, and the levels it went through. */
  datatype Trace = Trace(asked: seq<seq<Key>>, datas: seq<map<Key, Raw>>, levels: seq<Level>)

  /** The request lists the keys of the level that have to be followed, each once. */
  ghost predicate AsksFor(keys: seq<Key>, l: Level) {
    NoDuplicates(keys) && forall k :: k in keys <==> k in l && !l[k].Leaf?
  }

  /** Each request was for one level, in order, and these data were the answers. */
  ghost predicate AskedInOrder(provider: Provider, t: Trace) {
    && |t.datas| <= |t.asked| <= |t.levels|
    && (forall i :: 0 <= i < |t.asked| ==> AsksFor(t.asked[i], t.levels[i]))
    && (forall i :: 0 <= i < |t.datas| ==> provider(i, t.asked[i]) == Some(t.datas[i]))
  }

  /** What is known when `Update` ends: the levels it went through, and why it ended. */
  ghost predicate EndsWith(bodies: seq<Body>, provider: Provider, r: Outcome, t: Trace) {
    var n := |t.datas|;
    && IsPartial(bodies, t.datas, t.levels) && AskedInOrder(provider, t)
    && match r
       case Updated => |t.asked| == n && !Open(t.levels[n])
       case _ => |t.asked| == n + 1 && Open(t.levels[n]) && Unusable(provider(n, t.asked[n]), t.levels[n], r)
  }

  ghost predicate FailsAt(answer: Option<map<Key, Raw>>, l: Level, key: Key, why: Decoded<seq<string>>) {
    && answer.Some? && key in l && !l[key].Leaf?
    && Lookup(answer.value, key) != Nil
    && ReadValue(l[key], Lookup(answer.value, key)) == why
  }

  class Builder {
    const bodies: seq<Body>
    var buffer: array<Key>
    var len: nat

    ghost predicate Valid()
      reads this
    {
      len <= buffer.Length
    }

    ghost function Contents(): seq<Key>
      requires Valid()
      reads this, buffer
    {
      buffer[..len]
    }

    constructor (bodies: seq<Body>)
      ensures Valid() && fresh(buffer) && Contents() == [] && this.bodies == bodies
    {
      this.bodies := bodies;
      buffer := new Key[0];
      len := 0;
    }

    /** Go's append: the backing array is reused while it is large enough. */
    method Append(key: Key)
      requires Valid()
      modifies this, buffer
      ensures Valid() && Contents() == old(Contents()) + [key]
      ensures buffer == old(buffer) || fresh(buffer)
    {
      if len == buffer.Length {
        var bigger := new Key[2 * len + 1];
        forall i | 0 <= i < len {
          bigger[i] := buffer[i];
        }
        buffer := bigger;
      }
      buffer[len] := key;
      len := len + 1;
    }

    /** The keys as a slice of their own. */
    method Keys() returns (keys: array<Key>)
      requires Valid()
      ensures fresh(keys) && keys[..] == Contents()
    {
      keys := new Key[len];
      forall i | 0 <= i < len {
        keys[i] := buffer[i];
      }
    }

    /** The first half of a round: list all keys, and collect those that have to be followed. */
    method ListLevel(process: Level) returns (processed: set<Key>, needed: seq<Key>)
      requires Valid()
      modifies this, buffer
      ensures Valid() && (buffer == old(buffer) || fresh(buffer))
      ensures processed == set k | k in process && !process[k].Leaf?
      ensures AsksFor(needed, process) && (needed == [] <==> processed == {})
      ensures Elements(Contents()) == old(Elements(Contents())) + process.Keys
    {
      processed, needed := {}, [];
      var todo := process.Keys;
      while todo != {}
        invariant Valid() && (buffer == old(buffer) || fresh(buffer))
        invariant todo <= process.Keys
        invariant processed == set k | k in process && k !in todo && !process[k].Leaf?
        invariant NoDuplicates(needed) && forall k :: k in needed <==> k in processed
        invariant Elements(Contents()) == old(Elements(Contents())) + (process.Keys - todo)
        decreases todo
      {
        var key :| key in todo;
        ElementsAppend(Contents(), key);
        Append(key);
        todo := todo - {key};
        if process[key].Leaf? {
          continue;
        }
        needed := needed + [key];
        processed := processed + {key};
      }
      assert needed != [] ==> needed[0] in processed;
    }

    /** One round of `Update`: it ends here, or goes on with the next level. */
    method TakeRound(provider: Provider, calls: nat, process: Level, ghost t: Trace)
      returns (r: Outcome, more: bool, next: Level, ghost t': Trace)
      requires Valid() && InProgress(bodies, provider, t, process) && calls == |t.datas|
      requires Elements(Contents()) + process.Keys == LevelKeys(t.levels)
      modifies this, buffer
      ensures Valid() && (buffer == old(buffer) || fresh(buffer))
      ensures more ==>
        && InProgress(bodies, provider, t', next) && |t'.datas| == calls + 1
        && Elements(Contents()) + next.Keys == LevelKeys(t'.levels)
      ensures !more ==> EndsWith(bodies, provider, r, t') && |t'.asked| <= RequestDepth(bodies)
      ensures !more && r == Updated ==> Elements(Contents()) == LevelKeys(t'.levels)
    {
      next := map[];
      var processed, needed := ListLevel(process);
      if |needed| == 0 {
        EndsUpdated(bodies, provider, t, process, needed);
        return Updated, false, next, t;
      }
      assert needed[0] in needed && Open(process);
      var answer := provider(calls, needed);
      if answer.None? {
        EndsFailed(bodies, provider, t, process, needed, LoadFailed);
        return LoadFailed, false, next, t.(asked := t.asked + [needed]);
      }
      r, next := FollowAll(process, processed, answer.value);
      if r != Updated {
        EndsFailed(bodies, provider, t, process, needed, r);
        return r, false, next, t.(asked := t.asked + [needed]);
      }
      ProgressNext(bodies, provider, t, process, needed, answer.value, next);
      return Updated, true, next, Trace(t.asked + [needed], t.datas + [answer.value], t.levels + [next]);
    }

    /**
     * `Update` against a data provider. It asks at most as often as the request is deep; on an
     * error the key list is empty.
     */
    method Update(provider: Provider) returns (r: Outcome, ghost t: Trace)
      requires Valid()
      modifies this, buffer
      ensures Valid() && (buffer == old(buffer) || fresh(buffer))
      ensures EndsWith(bodies, provider, r, t)
      ensures |t.asked| <= RequestDepth(bodies)
      ensures r == Updated ==> forall x :: x in Contents() <==> Built(t.levels, x)
      ensures r != Updated ==> Contents() == []
    {
      var process := Start(bodies);
      t := Trace([], [], [process]);
      assert t.levels[..0] == [];
      StartWithin(bodies, process);
      len := 0;
      var calls, more := 0, true;
      r := Updated;
      while more
        invariant Valid() && (buffer == old(buffer) || fresh(buffer))
        invariant more ==>
          && InProgress(bodies, provider, t, process) && calls == |t.datas|
          && Elements(Contents()) + process.Keys == LevelKeys(t.levels)
        invariant !more ==> EndsWith(bodies, provider, r, t) && |t.asked| <= RequestDepth(bodies)
        invariant !more && r == Updated ==> Elements(Contents()) == LevelKeys(t.levels)
        decreases more, RequestDepth(bodies) - |t.datas|
      {
        r, more, process, t := TakeRound(provider, calls, process, t);
        calls := calls + 1;
      }
      if r == Updated {
        ListedIsBuilt(Contents(), t.levels);
      } else {
        len := 0;
      }
    }
  }

  /** The levels so far, the last of which is being processed, and the depth that is left. */
  ghost predicate InProgress(bodies: seq<Body>, provider: Provider, t: Trace, process: Level) {
    && IsPartial(bodies, t.datas, t.levels) && t.levels[|t.datas|] == process
    && AskedInOrder(provider, t) && |t.asked| == |t.datas|
    && |t.datas| <= RequestDepth(bodies) && LevelWithin(process, RequestDepth(bodies) - |t.datas|)
  }

  lemma {:induction false} EndsUpdated(bodies: seq<Body>, provider: Provider, t: Trace,
                                       process: Level, needed: seq<Key>)
    requires InProgress(bodies, provider, t, process) && AsksFor(needed, process) && needed == []
    ensures EndsWith(bodies, provider, Updated, t) && |t.asked| <= RequestDepth(bodies)
  {
  }

  /** The last request got no answer, or one that a description of the level cannot read. */
  ghost predicate Unusable(answer: Option<map<Key, Raw>>, process: Level, r: Outcome) {
    match r
    case Updated => false
    case LoadFailed => answer == None
    case ValueError(key) => FailsAt(answer, process, key, WrongType)
    case DecodeError(key) => FailsAt(answer, process, key, NotJson)
  }

  lemma {:induction false} EndsFailed(bodies: seq<Body>, provider: Provider, t: Trace, process: Level, needed: seq<Key>,
                                      r: Outcome)
    requires InProgress(bodies, provider, t, process) && AsksFor(needed, process) && Open(process)
    requires Unusable(provider(|t.datas|, needed), process, r)
    ensures EndsWith(bodies, provider, r, t.(asked := t.asked + [needed]))
    ensures |t.asked| + 1 <= RequestDepth(bodies)
  {
    OpenHasDepth(process, RequestDepth(bodies) - |t.datas|);
    var asked := t.asked + [needed];
    assert t.levels[|t.datas|] == process && asked[|t.datas|] == needed;
  }

  lemma {:induction false} OpenHasDepth(l: Level, n: nat)
    requires LevelWithin(l, n) && Open(l)
    ensures n > 0
  {
    var k :| k in l && !l[k].Leaf?;
    assert Depth(l[k]) > 0;
  }

  lemma {:induction false} ProgressNext(bodies: seq<Body>, provider: Provider, t: Trace, process: Level,
                                        needed: seq<Key>,
                     data: map<Key, Raw>, next: Level)
    requires InProgress(bodies, provider, t, process) && AsksFor(needed, process)
    requires Open(process) && provider(|t.datas|, needed) == Some(data) && IsNext(process, data, next)
    ensures InProgress(bodies, provider, Trace(t.asked + [needed], t.datas + [data], t.levels + [next]), next)
    ensures LevelKeys(t.levels + [next]) == LevelKeys(t.levels) + next.Keys
  {
    NextWithin(process, data, next, RequestDepth(bodies) - |t.datas|);
    PartialNext(bodies, t.datas, t.levels, data, next);
  }

  lemma {:induction false} PartialNext(bodies: seq<Body>, datas: seq<map<Key, Raw>>, levels: seq<Level>,
                                       data: map<Key, Raw>, next: Level)
    requires IsPartial(bodies, datas, levels) && Open(levels[|datas|]) && IsNext(levels[|datas|], data, next)
    ensures IsPartial(bodies, datas + [data], levels + [next])
    ensures LevelKeys(levels + [next]) == LevelKeys(levels) + next.Keys
  {
    assert (levels + [next])[..|levels|] == levels;
    forall i | 0 <= i < |datas| + 1 ensures IsRound(datas + [data], levels + [next], i) {
      assert i < |datas| ==> IsRound(datas, levels, i);
    }
  }

  /**
   * The middle of `Next`: the old keys are taken, the builder is updated, the new keys are
   * taken. Although `Update` writes into the array it wrote to before, the old keys survive, and
   * no later `Update` can reach either list.
   */
  method KeysAcrossUpdate(b: Builder, provider: Provider)
    returns (before: array<Key>, r: Outcome, after: array<Key>, ghost t: Trace)
    requires b.Valid()
    modifies b, b.buffer
    ensures b.Valid() && (b.buffer == old(b.buffer) || fresh(b.buffer))
    ensures before[..] == old(b.Contents()) && after[..] == b.Contents()
    ensures fresh(before) && fresh(after) && before != b.buffer && after != b.buffer
    ensures EndsWith(b.bodies, provider, r, t)
    ensures r == Updated ==> forall x :: x in after[..] <==> Built(t.levels, x)
    ensures r != Updated ==> after[..] == []
  {
    before := b.Keys();
    r, t := b.Update(provider);
    after := b.Keys();
  }

  /** Every `Update` of the two clashing bodies succeeds without loading anything, and misses the key. */
  lemma {:induction false} ClashingUpdateLosesKey(provider: Provider, r: Outcome, t: Trace, snap: Key -> Raw)
    requires EndsWith(CLASHING, provider, r, t) && snap("a/1/r") == Doc(Str("b/1"))
    ensures r == Updated && t.asked == []
    ensures RequestDenotes(CLASHING, snap, "b/1/x") && !Built(t.levels, "b/1/x")
  {
    ClashingBodiesLoseKeys(t.datas, t.levels, snap);
  }
}
