/** The recursive meaning of a key request, and the breadth-first builds that should compute it. */
module Request {
  import opened Values
  import opened Fields

  // ---- The meaning ----

  /** Following `d` from `key`, whose value is `v`, leads to `k` with description `child`. */
  ghost predicate Follows(d: Desc, key: Key, v: Raw, k: Key, child: Desc) {
    v != Nil && ReadValue(d, v).Value? && Writes(d, key, ReadValue(d, v).value, k, child)
  }

  /** The key with its first dollar replaced by the word. */
  ghost predicate Replaced(key: Key, w: string, k: Key) {
    ('$' !in key && k == key) || exists a, b :: '$' !in a && key == a + "$" + b && k == a + w + b
  }

  /** Where a value leads to, said of the JSON value and the parts of the key. */
  ghost predicate Leads(d: Desc, key: Key, j: Json, k: Key, child: Desc) {
    match d
    case Leaf => false
    case Template(values) => child == values && exists w :: Names(d, j, w) && Replaced(key, w, k)
    case _ => exists w, f :: Names(d, j, w) && f in d.fields && child == d.fields[f] && k == w + "/" + f
  }

  lemma {:induction false} SplitAtDollar(key: Key) returns (a: string, b: string)
    requires '$' in key
    ensures '$' !in a && key == a + "$" + b
  {
    if key[0] == '$' {
      a, b := "", key[1..];
    } else {
      var a', b' := SplitAtDollar(key[1..]);
      a, b := [key[0]] + a', b';
    }
  }

  lemma {:induction false} ReplacedIff(key: Key, w: string, k: Key)
    ensures k == ReplaceFirst(key, w) <==> Replaced(key, w, k)
  {
    if '$' in key {
      var a, b := SplitAtDollar(key);
      ReplacesFirst(a, b, w);
      if Replaced(key, w, k) {
        var x, y :| '$' !in x && key == x + "$" + y && k == x + w + y;
        ReplacesFirst(x, y, w);
      }
    } else {
      ReplacesFirst(key, "", w);
    }
  }

  lemma {:induction false} FieldsLead(d: Desc, key: Key, v: Raw, k: Key, child: Desc)
    requires HasFields(d) && v.Doc? && ReadValue(d, v).Value?
    requires forall w :: w in ReadValue(d, v).value <==> Names(d, v.json, w)
    ensures Follows(d, key, v, k, child) <==> Leads(d, key, v.json, k, child)
  {
    var words := ReadValue(d, v).value;
    assert forall w, f :: GenericKey(w, f) == w + "/" + f;
    if Writes(d, key, words, k, child) {
      var w, f :| w in words && f in d.fields && k == GenericKey(w, f) && child == d.fields[f];
      assert Names(d, v.json, w);
    }
  }

  lemma {:induction false} TemplateLead(d: Desc, key: Key, v: Raw, k: Key, child: Desc)
    requires d.Template? && v.Doc? && ReadValue(d, v).Value?
    requires forall w :: w in ReadValue(d, v).value <==> Names(d, v.json, w)
    ensures Follows(d, key, v, k, child) <==> Leads(d, key, v.json, k, child)
  {
    forall w ensures k == ReplaceFirst(key, w) <==> Replaced(key, w, k) {
      ReplacedIff(key, w, k);
    }
  }

  /**
   * Following a description leads exactly to the keys that its value names: for relations the
   * fields of the named objects, for a template the key with each word in it.
   */
  lemma {:induction false} FollowsIff(d: Desc, key: Key, v: Raw, k: Key, child: Desc)
    ensures Follows(d, key, v, k, child) <==> v.Doc? && Fits(d, v.json) && Leads(d, key, v.json, k, child)
  {
    ReadValueIff(d, v, "");
    if v.Doc? && Fits(d, v.json) && !d.Leaf? {
      forall w ensures w in ReadValue(d, v).value <==> Names(d, v.json, w) {
        ReadValueIff(d, v, w);
      }
      if d.Template? {
        TemplateLead(d, key, v, k, child);
      } else {
        FieldsLead(d, key, v, k, child);
      }
    }
  }

  /** A relation leads to the fields of the object with the id that is its value. */
  lemma {:induction false} RelationLeads(collection: string, fields: map<string, Desc>, key: Key, n: int,
                                         k: Key, child: Desc)
    requires -0x8000_0000_0000_0000 <= n < 0x8000_0000_0000_0000
    ensures Follows(Relation(collection, fields), key, Doc(Int(n)), k, child)
        <==> exists f :: f in fields && child == fields[f] && k == collection + "/" + Itoa(n) + "/" + f
  {
    var d := Relation(collection, fields);
    FollowsIff(d, key, Doc(Int(n)), k, child);
    assert IntOf(Int(n), n);
    if exists f :: f in fields && child == fields[f] && k == collection + "/" + Itoa(n) + "/" + f {
      assert Names(d, Int(n), collection + "/" + Itoa(n));
    }
  }

  /** The key is a field of an object of the collection with one of these ids. */
  ghost predicate FieldOfListed(collection: string, fields: map<string, Desc>, ids: seq<Json>, k: Key, child: Desc) {
    exists j, n, f :: j in ids && IntOf(j, n) && f in fields && child == fields[f]
                      && k == collection + "/" + Itoa(n) + "/" + f
  }

  lemma {:induction false} ListedIsNamed(collection: string, fields: map<string, Desc>, key: Key, ids: seq<Json>,
                                         k: Key, child: Desc)
    requires FieldOfListed(collection, fields, ids, k, child)
    ensures Leads(RelationList(collection, fields), key, Arr(ids), k, child)
  {
    var j, n, f :| j in ids && IntOf(j, n) && f in fields && child == fields[f]
                   && k == collection + "/" + Itoa(n) + "/" + f;
    var w := collection + "/" + Itoa(n);
    assert ObjectOf(collection, j, w);
    assert Names(RelationList(collection, fields), Arr(ids), w) && k == w + "/" + f;
  }

  lemma {:induction false} NamedIsListed(collection: string, fields: map<string, Desc>, key: Key, ids: seq<Json>,
                                         k: Key, child: Desc)
    requires Leads(RelationList(collection, fields), key, Arr(ids), k, child)
    ensures FieldOfListed(collection, fields, ids, k, child)
  {
    var d := RelationList(collection, fields);
    var w, f :| Names(d, Arr(ids), w) && f in fields && child == fields[f] && k == w + "/" + f;
    var j :| j in ids && ObjectOf(collection, j, w);
    var n :| IntOf(j, n) && w == collection + "/" + Itoa(n);
  }

  /** A relation list leads to the fields of each object that it lists. */
  lemma {:induction false} RelationListLeads(collection: string, fields: map<string, Desc>, key: Key, ids: seq<Json>,
                                             k: Key, child: Desc)
    requires forall j :: j in ids ==> IsInt(j)
    ensures Follows(RelationList(collection, fields), key, Doc(Arr(ids)), k, child)
        <==> FieldOfListed(collection, fields, ids, k, child)
  {
    FollowsIff(RelationList(collection, fields), key, Doc(Arr(ids)), k, child);
    if FieldOfListed(collection, fields, ids, k, child) {
      ListedIsNamed(collection, fields, key, ids, k, child);
    }
    if Leads(RelationList(collection, fields), key, Arr(ids), k, child) {
      NamedIsListed(collection, fields, key, ids, k, child);
    }
  }

  /** A generic relation, and each entry of a list of them, names an object with its collection. */
  lemma {:induction false} GenericLeads(fields: map<string, Desc>, key: Key, name: string, names: seq<string>,
                                        k: Key, child: Desc)
    ensures Follows(Generic(fields), key, Doc(Str(name)), k, child)
        <==> exists f :: f in fields && child == fields[f] && k == name + "/" + f
    ensures Follows(GenericList(fields), key, Doc(Arr(Strings(names))), k, child)
        <==> exists w, f :: w in names && f in fields && child == fields[f] && k == w + "/" + f
  {
    var one, list := Generic(fields), GenericList(fields);
    FollowsIff(one, key, Doc(Str(name)), k, child);
    assert StrOf(Str(name), name);
    FollowsIff(list, key, Doc(Arr(Strings(names))), k, child);
    StringsAre(names);
    assert forall w :: Names(list, Arr(Strings(names)), w) <==> w in names by {
      forall w ensures Names(list, Arr(Strings(names)), w) <==> w in names {
        assert w in names <==> Str(w) in Strings(names);
      }
    }
  }

  /** A template leads to its key with each word of the list in place of the dollar. */
  lemma {:induction false} TemplateLeads(values: Desc, a: string, b: string, words: seq<string>, k: Key, child: Desc)
    requires '$' !in a
    ensures Follows(Template(values), a + "$" + b, Doc(Arr(Strings(words))), k, child)
        <==> child == values && exists w :: w in words && k == a + w + b
  {
    var d, list := Template(values), Arr(Strings(words));
    FollowsIff(d, a + "$" + b, Doc(list), k, child);
    StringsAre(words);
    forall w ensures Names(d, list, w) <==> w in words {
      assert w in words <==> Str(w) in Strings(words);
    }
    forall w ensures Replaced(a + "$" + b, w, k) <==> k == a + w + b {
      ReplacedIff(a + "$" + b, w, k);
      ReplacesFirst(a, b, w);
    }
  }

  function Strings(words: seq<string>): seq<Json> {
    seq(|words|, i requires 0 <= i < |words| => Str(words[i]))
  }

  lemma {:induction false} StringsAre(words: seq<string>)
    ensures forall j :: j in Strings(words) <==> j.Str? && j.text in words
  {
    forall j ensures j in Strings(words) <==> j.Str? && j.text in words {
      if j.Str? && j.text in words {
        var i :| 0 <= i < |words| && words[i] == j.text;
        assert Strings(words)[i] == j;
      }
    }
    forall j | j in Strings(words) ensures IsStr(j) {
      assert StrOf(j, j.text);
    }
  }

  /** A value is unreadable exactly if it is there and does not fit its description. */
  lemma {:induction false} UnreadableIff(d: Desc, v: Raw)
    ensures Unreadable(d, v) <==> !d.Leaf? && v != Nil && !(v.Doc? && Fits(d, v.json))
  {
    ReadValueIff(d, v, "");
  }

  /** Where a value leads to does not depend on the order of a list. */
  lemma {:induction false} FollowsUpToOrder(d: Desc, key: Key, v: Raw, v': Raw, k: Key, child: Desc)
    requires SameUpToOrder(v, v') && Follows(d, key, v, k, child)
    ensures Follows(d, key, v', k, child)
  {
    if d.Template? {
      var w :| w in ReadValue(d, v).value && k == ReplaceFirst(key, w);
      ReadUpToOrder(d, v, v', w);
    } else {
      var w, f :| w in ReadValue(d, v).value && f in d.fields && k == GenericKey(w, f) && child == d.fields[f];
      ReadUpToOrder(d, v, v', w);
    }
  }

  /** A value that exists but has the wrong form for its description. */
  predicate Unreadable(d: Desc, v: Raw) {
    !d.Leaf? && v != Nil && !ReadValue(d, v).Value?
  }

  /** The keys that a key with a description stands for, over a snapshot of all values. */
  ghost predicate Denotes(d: Desc, key: Key, snap: Key -> Raw, x: Key)
    decreases d
  {
    x == key ||
    exists k, child :: Follows(d, key, snap(key), k, child) && child < d && Denotes(child, k, snap, x)
  }

  /** The bodies ask for `k` with description `d`. */
  ghost predicate Requests(bodies: seq<Body>, k: Key, d: Desc) {
    exists i :: 0 <= i < |bodies| && BodyRequests(bodies[i], k, d)
  }

  function CollectionIds(b: Body): seq<string> {
    seq(|b.ids|, i requires 0 <= i < |b.ids| => CollectionId(b.collection, b.ids[i]))
  }

  /** A body asks for its fields of each of its objects. */
  ghost predicate BodyRequests(b: Body, k: Key, d: Desc) {
    Writes(Generic(b.fields), "", CollectionIds(b), k, d)
  }

  /** A body asks for exactly its fields of the objects with its ids. */
  lemma {:induction false} BodyRequestsIff(b: Body, k: Key, d: Desc)
    ensures BodyRequests(b, k, d)
        <==> exists id, f :: id in b.ids && f in b.fields && d == b.fields[f]
                             && k == b.collection + "/" + Itoa(id) + "/" + f
  {
    if BodyRequests(b, k, d) {
      var w, f :| w in CollectionIds(b) && f in b.fields && k == GenericKey(w, f) && d == b.fields[f];
      var i :| 0 <= i < |b.ids| && CollectionId(b.collection, b.ids[i]) == w;
      assert b.ids[i] in b.ids;
    }
    if exists id, f :: id in b.ids && f in b.fields && d == b.fields[f]
                       && k == b.collection + "/" + Itoa(id) + "/" + f {
      var id, f :| id in b.ids && f in b.fields && d == b.fields[f]
                   && k == b.collection + "/" + Itoa(id) + "/" + f;
      var i :| 0 <= i < |b.ids| && b.ids[i] == id;
      assert CollectionIds(b)[i] == CollectionId(b.collection, id) && CollectionIds(b)[i] in CollectionIds(b);
      assert k == GenericKey(CollectionIds(b)[i], f);
    }
  }

  ghost predicate RequestDenotes(bodies: seq<Body>, snap: Key -> Raw, x: Key) {
    exists k, d :: Requests(bodies, k, d) && Denotes(d, k, snap, x)
  }

  // ---- Breadth-first builds ----

  /** The keys of one round with their descriptions. */
  type Level = map<Key, Desc>

  /** Some key of the level has to be followed. */
  ghost predicate Open(l: Level) {
    exists k :: k in l && !l[k].Leaf?
  }

  /** The last body that asks for `k` gives it this description: the bodies are taken in order. */
  ghost predicate Wins(bodies: seq<Body>, k: Key, d: Desc) {
    exists i :: 0 <= i < |bodies| && WinsAt(bodies, i, k, d)
  }

  ghost predicate WinsAt(bodies: seq<Body>, i: nat, k: Key, d: Desc)
    requires i < |bodies|
  {
    BodyRequests(bodies[i], k, d) && forall j, e :: i < j < |bodies| ==> !BodyRequests(bodies[j], k, e)
  }

  ghost predicate IsStart(bodies: seq<Body>, l: Level) {
    && (forall k :: k in l ==> Wins(bodies, k, l[k]))
    && (forall k, d :: Requests(bodies, k, d) ==> k in l)
  }

  lemma {:induction false} WinnerIsRequested(bodies: seq<Body>, k: Key, d: Desc)
    requires Wins(bodies, k, d)
    ensures Requests(bodies, k, d)
  {
    var i :| 0 <= i < |bodies| && WinsAt(bodies, i, k, d);
    assert BodyRequests(bodies[i], k, d);
  }

  ghost predicate ReachedFrom(l: Level, data: map<Key, Raw>, k: Key, d: Desc) {
    exists p :: p in l && Follows(l[p], p, Lookup(data, p), k, d)
  }

  /**
   * A round: each key that some description of the level leads to is in the next level, with
   * one of the descriptions it was reached with. Which one depends on the iteration order.
   */
  ghost predicate IsNext(l: Level, data: map<Key, Raw>, l': Level) {
    && (forall k :: k in l ==> !Unreadable(l[k], Lookup(data, k)))
    && (forall k :: k in l' ==> ReachedFrom(l, data, k, l'[k]))
    && (forall k, d :: ReachedFrom(l, data, k, d) ==> k in l')
  }

  /** The levels of an `Update` so far, and the data that was loaded between them. */
  ghost predicate IsPartial(bodies: seq<Body>, datas: seq<map<Key, Raw>>, levels: seq<Level>) {
    && |levels| == |datas| + 1
    && IsStart(bodies, levels[0])
    && (forall i :: 0 <= i < |datas| ==> IsRound(datas, levels, i))
  }

  /** A successful `Update` stops at the first level that has nothing to follow. */
  ghost predicate IsBuild(bodies: seq<Body>, datas: seq<map<Key, Raw>>, levels: seq<Level>) {
    IsPartial(bodies, datas, levels) && !Open(levels[|datas|])
  }

  ghost predicate IsRound(datas: seq<map<Key, Raw>>, levels: seq<Level>, i: nat)
    requires i < |datas| && |levels| == |datas| + 1
  {
    Open(levels[i]) && IsNext(levels[i], datas[i], levels[i + 1])
  }

  /** The data loaded for a level is what the snapshot says, up to the order of lists. */
  ghost predicate Loaded(l: Level, data: map<Key, Raw>, snap: Key -> Raw) {
    forall k :: k in l && !l[k].Leaf? ==> SameUpToOrder(Lookup(data, k), snap(k))
  }

  ghost predicate OverSnapshot(datas: seq<map<Key, Raw>>, levels: seq<Level>, snap: Key -> Raw)
    requires |levels| == |datas| + 1
  {
    forall i :: 0 <= i < |datas| ==> Loaded(levels[i], datas[i], snap)
  }

  ghost predicate Built(levels: seq<Level>, x: Key) {
    exists i :: 0 <= i < |levels| && x in levels[i]
  }

  // ---- Every built key is meant ----

  lemma {:induction false} LeafFollowsNothing(d: Desc, key: Key, v: Raw, k: Key, child: Desc)
    requires Follows(d, key, v, k, child)
    ensures !d.Leaf? && child < d && Depth(child) < Depth(d)
  {
    WritesAreLessDeep(d, key, ReadValue(d, v).value, k, child);
  }

  lemma {:induction false} DenotesBelow(d: Desc, key: Key, snap: Key -> Raw, k: Key, child: Desc, x: Key)
    requires Follows(d, key, snap(key), k, child) && Denotes(child, k, snap, x)
    ensures Denotes(d, key, snap, x)
  {
    LeafFollowsNothing(d, key, snap(key), k, child);
  }

  // ---- What a request offers at each depth ----

  /** Each description of the chain leads to the next one. */
  ghost predicate IsChain(snap: Key -> Raw, chain: seq<(Key, Desc)>) {
    chain != [] && forall j :: 0 <= j < |chain| - 1 ==> LeadsTo(snap, chain[j], chain[j + 1])
  }

  ghost predicate LeadsTo(snap: Key -> Raw, from: (Key, Desc), to: (Key, Desc)) {
    Follows(from.1, from.0, snap(from.0), to.0, to.1)
  }

  /** The chain starts with something that the bodies ask for, and has `i` steps to `k` with `d`. */
  ghost predicate OffersBy(bodies: seq<Body>, snap: Key -> Raw, i: nat, k: Key, d: Desc, chain: seq<(Key, Desc)>) {
    && IsChain(snap, chain) && |chain| == i + 1
    && Requests(bodies, chain[0].0, chain[0].1) && chain[i] == (k, d)
  }

  /** Following the request `i` times over the snapshot leads to `k` with description `d`. */
  ghost predicate Offers(bodies: seq<Body>, snap: Key -> Raw, i: nat, k: Key, d: Desc) {
    exists chain :: OffersBy(bodies, snap, i, k, d, chain)
  }

  lemma {:induction false} RequestedIsOffered(bodies: seq<Body>, snap: Key -> Raw, k: Key, d: Desc)
    requires Requests(bodies, k, d)
    ensures Offers(bodies, snap, 0, k, d)
  {
    assert OffersBy(bodies, snap, 0, k, d, [(k, d)]);
  }

  lemma {:induction false} OfferedNext(bodies: seq<Body>, snap: Key -> Raw, i: nat, p: Key, e: Desc, k: Key, d: Desc)
    requires Offers(bodies, snap, i, p, e) && Follows(e, p, snap(p), k, d)
    ensures Offers(bodies, snap, i + 1, k, d)
  {
    var chain :| OffersBy(bodies, snap, i, p, e, chain);
    ChainNext(snap, chain, (k, d));
    assert OffersBy(bodies, snap, i + 1, k, d, chain + [(k, d)]);
  }

  lemma {:induction false} ChainNext(snap: Key -> Raw, chain: seq<(Key, Desc)>, to: (Key, Desc))
    requires IsChain(snap, chain) && LeadsTo(snap, chain[|chain| - 1], to)
    ensures IsChain(snap, chain + [to])
  {
  }

  /** A chain leads to what its last description stands for. */
  lemma {:induction false} ChainDenotes(snap: Key -> Raw, chain: seq<(Key, Desc)>, x: Key)
    requires IsChain(snap, chain) && Denotes(chain[|chain| - 1].1, chain[|chain| - 1].0, snap, x)
    ensures Denotes(chain[0].1, chain[0].0, snap, x)
  {
    if |chain| > 1 {
      var rest := chain[1..];
      assert LeadsTo(snap, chain[0], chain[1]);
      assert IsChain(snap, rest);
      ChainDenotes(snap, rest, x);
      DenotesBelow(chain[0].1, chain[0].0, snap, chain[1].0, chain[1].1, x);
    }
  }

  lemma {:induction false} RequestedIsMeant(bodies: seq<Body>, snap: Key -> Raw, k: Key, d: Desc, x: Key)
    requires Requests(bodies, k, d) && Denotes(d, k, snap, x)
    ensures RequestDenotes(bodies, snap, x)
  {
  }

  /** What is offered at some depth is meant. */
  lemma {:induction false} OfferedIsMeant(bodies: seq<Body>, snap: Key -> Raw, i: nat, k: Key, d: Desc, x: Key)
    requires Offers(bodies, snap, i, k, d) && Denotes(d, k, snap, x)
    ensures RequestDenotes(bodies, snap, x)
  {
    var chain: seq<(Key, Desc)> :| OffersBy(bodies, snap, i, k, d, chain);
    ChainDenotes(snap, chain, x);
    RequestedIsMeant(bodies, snap, chain[0].0, chain[0].1, x);
  }

  /** What the level has was offered at that depth. */
  ghost predicate LevelOffered(bodies: seq<Body>, snap: Key -> Raw, i: nat, l: Level) {
    forall k :: k in l ==> Offers(bodies, snap, i, k, l[k])
  }

  lemma {:induction false} StartOffered(bodies: seq<Body>, snap: Key -> Raw, l: Level)
    requires IsStart(bodies, l)
    ensures LevelOffered(bodies, snap, 0, l)
  {
    forall k | k in l ensures Offers(bodies, snap, 0, k, l[k]) {
      WinnerIsRequested(bodies, k, l[k]);
      RequestedIsOffered(bodies, snap, k, l[k]);
    }
  }

  /** What a level leads to is offered at the next depth. */
  lemma {:induction false} ReachedOffered(bodies: seq<Body>, snap: Key -> Raw, i: nat, l: Level, data: map<Key, Raw>,
                                          k: Key, d: Desc)
    requires LevelOffered(bodies, snap, i, l) && Loaded(l, data, snap) && ReachedFrom(l, data, k, d)
    ensures Offers(bodies, snap, i + 1, k, d)
  {
    var p :| p in l && Follows(l[p], p, Lookup(data, p), k, d);
    LeafFollowsNothing(l[p], p, Lookup(data, p), k, d);
    FollowsUpToOrder(l[p], p, Lookup(data, p), snap(p), k, d);
    OfferedNext(bodies, snap, i, p, l[p], k, d);
  }

  lemma {:induction false} NextOffered(bodies: seq<Body>, snap: Key -> Raw, i: nat, l: Level, data: map<Key, Raw>,
                                       l': Level)
    requires LevelOffered(bodies, snap, i, l) && Loaded(l, data, snap) && IsNext(l, data, l')
    ensures LevelOffered(bodies, snap, i + 1, l')
  {
    forall k | k in l' ensures Offers(bodies, snap, i + 1, k, l'[k]) {
      ReachedOffered(bodies, snap, i, l, data, k, l'[k]);
    }
  }

  /** The round goes to the next level with data of the snapshot. */
  ghost predicate RoundLoaded(datas: seq<map<Key, Raw>>, levels: seq<Level>, snap: Key -> Raw, i: nat) {
    |levels| == |datas| + 1 && i < |datas| && IsRound(datas, levels, i) && Loaded(levels[i], datas[i], snap)
  }

  lemma {:induction false} RoundOffered(bodies: seq<Body>, datas: seq<map<Key, Raw>>, levels: seq<Level>,
                                        snap: Key -> Raw, i: nat)
    requires RoundLoaded(datas, levels, snap, i) && LevelOffered(bodies, snap, i, levels[i])
    ensures LevelOffered(bodies, snap, i + 1, levels[i + 1])
  {
    NextOffered(bodies, snap, i, levels[i], datas[i], levels[i + 1]);
  }

  lemma {:induction false} RoundsOffered(bodies: seq<Body>, datas: seq<map<Key, Raw>>, levels: seq<Level>,
                                         snap: Key -> Raw, i: nat)
    requires i < |levels| && LevelOffered(bodies, snap, 0, levels[0])
    requires forall j :: 0 <= j < i ==> RoundLoaded(datas, levels, snap, j)
    ensures LevelOffered(bodies, snap, i, levels[i])
  {
    if i > 0 {
      RoundsOffered(bodies, datas, levels, snap, i - 1);
      RoundOffered(bodies, datas, levels, snap, i - 1);
    }
  }

  lemma {:induction false} BuiltIsOffered(bodies: seq<Body>, datas: seq<map<Key, Raw>>, levels: seq<Level>,
                                          snap: Key -> Raw, i: nat)
    requires IsPartial(bodies, datas, levels) && OverSnapshot(datas, levels, snap) && i < |levels|
    ensures LevelOffered(bodies, snap, i, levels[i])
  {
    StartOffered(bodies, snap, levels[0]);
    forall j | 0 <= j < i ensures RoundLoaded(datas, levels, snap, j) {
      assert IsRound(datas, levels, j) && Loaded(levels[j], datas[j], snap);
    }
    RoundsOffered(bodies, datas, levels, snap, i);
  }

  lemma {:induction false} ReachedIsOffered(bodies: seq<Body>, datas: seq<map<Key, Raw>>, levels: seq<Level>,
                                            snap: Key -> Raw, i: nat, k: Key, d: Desc)
    requires IsPartial(bodies, datas, levels) && OverSnapshot(datas, levels, snap)
    requires i < |datas| && ReachedFrom(levels[i], datas[i], k, d)
    ensures Offers(bodies, snap, i + 1, k, d)
  {
    BuiltIsOffered(bodies, datas, levels, snap, i);
    ReachedOffered(bodies, snap, i, levels[i], datas[i], k, d);
  }

  /** Over a fixed snapshot every build produces only keys of the request's meaning. */
  lemma {:induction false} BuiltIsMeant(bodies: seq<Body>, datas: seq<map<Key, Raw>>, levels: seq<Level>,
                                        snap: Key -> Raw, x: Key)
    requires IsBuild(bodies, datas, levels) && OverSnapshot(datas, levels, snap)
    requires Built(levels, x)
    ensures RequestDenotes(bodies, snap, x)
  {
    var i :| 0 <= i < |levels| && x in levels[i];
    BuiltIsOffered(bodies, datas, levels, snap, i);
    OfferedIsMeant(bodies, snap, i, x, levels[i][x], x);
  }

  // ---- Every meant key is built, unless a level is ambiguous ----

  /** The bodies ask for each key with one description. */
  ghost predicate ClearStart(bodies: seq<Body>) {
    forall k, d, e :: Requests(bodies, k, d) && Requests(bodies, k, e) ==> d == e
  }

  /** The round reaches each key with one description. */
  ghost predicate ClearRound(l: Level, data: map<Key, Raw>) {
    forall k, d, e :: ReachedFrom(l, data, k, d) && ReachedFrom(l, data, k, e) ==> d == e
  }

  /** No level gives one key two different descriptions. */
  ghost predicate Unambiguous(bodies: seq<Body>, datas: seq<map<Key, Raw>>, levels: seq<Level>)
    requires |levels| == |datas| + 1
  {
    ClearStart(bodies) && forall i :: 0 <= i < |datas| ==> ClearRound(levels[i], datas[i])
  }

  /** A description that level `i` was offered for `k`, but that another one replaced. */
  ghost predicate Lost(bodies: seq<Body>, datas: seq<map<Key, Raw>>, levels: seq<Level>, i: nat, k: Key, d: Desc)
    requires i < |levels| == |datas| + 1
  {
    && k in levels[i] && levels[i][k] != d
    && if i == 0 then Requests(bodies, k, d) else ReachedFrom(levels[i - 1], datas[i - 1], k, d)
  }

  /** The lost descriptions stand only for keys that are built anyway. */
  ghost predicate LossesHarmless(bodies: seq<Body>, datas: seq<map<Key, Raw>>, levels: seq<Level>, snap: Key -> Raw)
    requires |levels| == |datas| + 1
  {
    forall i, k, d :: 0 <= i < |levels| && Lost(bodies, datas, levels, i, k, d) ==> AllBuilt(levels, d, k, snap)
  }

  ghost predicate AllBuilt(levels: seq<Level>, d: Desc, k: Key, snap: Key -> Raw) {
    forall x :: Denotes(d, k, snap, x) ==> Built(levels, x)
  }

  /** A followed key is in the next level, with this description or with one that replaced it. */
  lemma {:induction false} BuiltNext(bodies: seq<Body>, datas: seq<map<Key, Raw>>, levels: seq<Level>, snap: Key -> Raw,
                  i: nat, p: Key, k: Key, d: Desc)
    requires |levels| == |datas| + 1 && i < |levels|
    requires i < |datas| ==> IsRound(datas, levels, i) && Loaded(levels[i], datas[i], snap)
    requires !Open(levels[|datas|])
    requires p in levels[i] && Follows(levels[i][p], p, snap(p), k, d)
    ensures i + 1 < |levels| && k in levels[i + 1]
    ensures levels[i + 1][k] == d || Lost(bodies, datas, levels, i + 1, k, d)
  {
    LeafFollowsNothing(levels[i][p], p, snap(p), k, d);
    assert Open(levels[i]);
    FollowsUpToOrder(levels[i][p], p, snap(p), Lookup(datas[i], p), k, d);
    assert ReachedFrom(levels[i], datas[i], k, d);
  }

  lemma {:induction false} MeantIsBuiltFrom(bodies: seq<Body>, datas: seq<map<Key, Raw>>, levels: seq<Level>,
                                            snap: Key -> Raw, i: nat, k: Key, x: Key)
    requires IsBuild(bodies, datas, levels) && OverSnapshot(datas, levels, snap)
    requires LossesHarmless(bodies, datas, levels, snap)
    requires i < |levels| && k in levels[i] && Denotes(levels[i][k], k, snap, x)
    ensures Built(levels, x)
    decreases |levels| - i
  {
    if x != k {
      var d := levels[i][k];
      var l, child :| Follows(d, k, snap(k), l, child) && child < d && Denotes(child, l, snap, x);
      assert i < |datas| ==> IsRound(datas, levels, i);
      BuiltNext(bodies, datas, levels, snap, i, k, l, child);
      if levels[i + 1][l] == child {
        MeantIsBuiltFrom(bodies, datas, levels, snap, i + 1, l, x);
      } else {
        assert AllBuilt(levels, child, l, snap);
      }
    }
  }

  lemma {:induction false} LostIsOffered(bodies: seq<Body>, datas: seq<map<Key, Raw>>, levels: seq<Level>,
                                         snap: Key -> Raw, i: nat, k: Key, d: Desc)
    requires IsPartial(bodies, datas, levels) && OverSnapshot(datas, levels, snap)
    requires i < |levels| && Lost(bodies, datas, levels, i, k, d)
    ensures Offers(bodies, snap, i, k, d)
  {
    if i == 0 {
      RequestedIsOffered(bodies, snap, k, d);
    } else {
      ReachedIsOffered(bodies, datas, levels, snap, i - 1, k, d);
    }
  }

  lemma {:induction false} LostIsMeant(bodies: seq<Body>, datas: seq<map<Key, Raw>>, levels: seq<Level>,
                                       snap: Key -> Raw, i: nat, k: Key, d: Desc, x: Key)
    requires IsBuild(bodies, datas, levels) && OverSnapshot(datas, levels, snap)
    requires i < |levels| && Lost(bodies, datas, levels, i, k, d) && Denotes(d, k, snap, x)
    ensures RequestDenotes(bodies, snap, x)
  {
    LostIsOffered(bodies, datas, levels, snap, i, k, d);
    OfferedIsMeant(bodies, snap, i, k, d, x);
  }

  ghost predicate Complete(bodies: seq<Body>, levels: seq<Level>, snap: Key -> Raw) {
    forall x :: RequestDenotes(bodies, snap, x) ==> Built(levels, x)
  }

  /** A build has all keys of the request's meaning exactly when what it lost does no harm. */
  lemma {:induction false} CompleteIffLossesHarmless(bodies: seq<Body>, datas: seq<map<Key, Raw>>, levels: seq<Level>,
                                                     snap: Key -> Raw)
    requires IsBuild(bodies, datas, levels) && OverSnapshot(datas, levels, snap)
    ensures Complete(bodies, levels, snap) <==> LossesHarmless(bodies, datas, levels, snap)
  {
    if Complete(bodies, levels, snap) {
      forall i, k, d, x | 0 <= i < |levels| && Lost(bodies, datas, levels, i, k, d) && Denotes(d, k, snap, x)
        ensures Built(levels, x)
      {
        LostIsMeant(bodies, datas, levels, snap, i, k, d, x);
      }
    }
    if LossesHarmless(bodies, datas, levels, snap) {
      forall x | RequestDenotes(bodies, snap, x) ensures Built(levels, x) {
        HarmlessIsComplete(bodies, datas, levels, snap, x);
      }
    }
  }

  lemma {:induction false} HarmlessIsComplete(bodies: seq<Body>, datas: seq<map<Key, Raw>>, levels: seq<Level>,
                                              snap: Key -> Raw, x: Key)
    requires IsBuild(bodies, datas, levels) && OverSnapshot(datas, levels, snap)
    requires LossesHarmless(bodies, datas, levels, snap) && RequestDenotes(bodies, snap, x)
    ensures Built(levels, x)
  {
    var k, d :| Requests(bodies, k, d) && Denotes(d, k, snap, x);
    if levels[0][k] == d {
      MeantIsBuiltFrom(bodies, datas, levels, snap, 0, k, x);
    } else {
      assert Lost(bodies, datas, levels, 0, k, d);
      assert AllBuilt(levels, d, k, snap);
    }
  }

  lemma {:induction false} UnambiguousLosesNothing(bodies: seq<Body>, datas: seq<map<Key, Raw>>, levels: seq<Level>,
                                i: nat, k: Key, d: Desc)
    requires IsBuild(bodies, datas, levels) && Unambiguous(bodies, datas, levels) && i < |levels|
    ensures !Lost(bodies, datas, levels, i, k, d)
  {
    if k in levels[i] {
      if i == 0 {
        WinnerIsRequested(bodies, k, levels[0][k]);
      } else {
        assert IsRound(datas, levels, i - 1);
        assert ClearRound(levels[i - 1], datas[i - 1]);
        assert ReachedFrom(levels[i - 1], datas[i - 1], k, levels[i][k]);
      }
    }
  }

  /** Breadth-first building is exact when no level gives one key two descriptions. */
  lemma {:induction false} BuiltIffMeant(bodies: seq<Body>, datas: seq<map<Key, Raw>>, levels: seq<Level>,
                                         snap: Key -> Raw, x: Key)
    requires IsBuild(bodies, datas, levels) && OverSnapshot(datas, levels, snap) && Unambiguous(bodies, datas, levels)
    ensures Built(levels, x) <==> RequestDenotes(bodies, snap, x)
  {
    if Built(levels, x) {
      BuiltIsMeant(bodies, datas, levels, snap, x);
    }
    forall i, k, d | 0 <= i < |levels| ensures !Lost(bodies, datas, levels, i, k, d) {
      UnambiguousLosesNothing(bodies, datas, levels, i, k, d);
    }
    CompleteIffLossesHarmless(bodies, datas, levels, snap);
  }

  // ---- When every build is exact, in terms of the request and the data ----

  /** Each depth offers each key with one description. */
  ghost predicate ClearRequest(bodies: seq<Body>, snap: Key -> Raw) {
    forall i: nat, k, d, e :: Offers(bodies, snap, i, k, d) && Offers(bodies, snap, i, k, e) ==> d == e
  }

  lemma {:induction false} ClearRequestIsUnambiguous(bodies: seq<Body>, datas: seq<map<Key, Raw>>, levels: seq<Level>,
                                                     snap: Key -> Raw)
    requires IsBuild(bodies, datas, levels) && OverSnapshot(datas, levels, snap) && ClearRequest(bodies, snap)
    ensures Unambiguous(bodies, datas, levels)
  {
    forall k, d, e | Requests(bodies, k, d) && Requests(bodies, k, e) ensures d == e {
      RequestedIsOffered(bodies, snap, k, d);
      RequestedIsOffered(bodies, snap, k, e);
    }
    forall i, k, d, e | 0 <= i < |datas| && ReachedFrom(levels[i], datas[i], k, d)
                        && ReachedFrom(levels[i], datas[i], k, e)
      ensures d == e
    {
      ReachedIsOffered(bodies, datas, levels, snap, i, k, d);
      ReachedIsOffered(bodies, datas, levels, snap, i, k, e);
    }
  }

  /** If each depth offers each key with one description, every build is exact, whatever the order. */
  lemma {:induction false} ClearRequestIsExact(bodies: seq<Body>, datas: seq<map<Key, Raw>>, levels: seq<Level>,
                                               snap: Key -> Raw, x: Key)
    requires IsBuild(bodies, datas, levels) && OverSnapshot(datas, levels, snap) && ClearRequest(bodies, snap)
    ensures Built(levels, x) <==> RequestDenotes(bodies, snap, x)
  {
    ClearRequestIsUnambiguous(bodies, datas, levels, snap);
    BuiltIffMeant(bodies, datas, levels, snap, x);
  }

  // ---- Builds end ----

  /** How deep the descriptions of a request are nested. */
  ghost function RequestDepth(bodies: seq<Body>): nat {
    if bodies == [] then 0
    else
      var fields := bodies[|bodies| - 1].fields;
      Max(RequestDepth(bodies[..|bodies| - 1]), FieldsDepth(Generic(fields), fields.Keys))
  }

  lemma {:induction false} RequestWithinDepth(bodies: seq<Body>, i: nat, f: string)
    requires i < |bodies| && f in bodies[i].fields
    ensures Depth(bodies[i].fields[f]) <= RequestDepth(bodies)
  {
    var n := |bodies| - 1;
    var init, last := RequestDepth(bodies[..n]), FieldsDepth(Generic(bodies[n].fields), bodies[n].fields.Keys);
    assert RequestDepth(bodies) == Max(init, last);
    if i == n {
      FieldBelow(Generic(bodies[n].fields), bodies[n].fields.Keys, f);
    } else {
      RequestWithinDepth(bodies[..n], i, f);
    }
  }

  /** The depth of a request is the length of its longest chain of descriptions to follow. */
  lemma {:induction false} RequestDepthIff(bodies: seq<Body>, n: nat)
    requires n > 0
    ensures n <= RequestDepth(bodies)
        <==> exists i, f :: 0 <= i < |bodies| && f in bodies[i].fields && Nests(bodies[i].fields[f], n)
  {
    if exists i, f :: 0 <= i < |bodies| && f in bodies[i].fields && Nests(bodies[i].fields[f], n) {
      var i, f :| 0 <= i < |bodies| && f in bodies[i].fields && Nests(bodies[i].fields[f], n);
      DepthIff(bodies[i].fields[f], n);
      RequestWithinDepth(bodies, i, f);
    }
    if n <= RequestDepth(bodies) {
      var i, f := DeepestOfRequest(bodies);
      DepthIff(bodies[i].fields[f], n);
    }
  }

  lemma {:induction false} DeepestOfRequest(bodies: seq<Body>) returns (i: nat, f: string)
    requires RequestDepth(bodies) > 0
    ensures i < |bodies| && f in bodies[i].fields && Depth(bodies[i].fields[f]) == RequestDepth(bodies)
  {
    var n := |bodies| - 1;
    var d := Generic(bodies[n].fields);
    var init, last := RequestDepth(bodies[..n]), FieldsDepth(d, d.fields.Keys);
    assert RequestDepth(bodies) == Max(init, last);
    if init < last {
      i := n;
      f := DeepestField(d, d.fields.Keys);
    } else {
      i, f := DeepestOfRequest(bodies[..n]);
    }
  }

  ghost predicate LevelWithin(l: Level, n: nat) {
    forall k :: k in l ==> Depth(l[k]) <= n
  }

  lemma {:induction false} StartWithin(bodies: seq<Body>, l: Level)
    requires IsStart(bodies, l)
    ensures LevelWithin(l, RequestDepth(bodies))
  {
    forall k | k in l ensures Depth(l[k]) <= RequestDepth(bodies) {
      WinnerIsRequested(bodies, k, l[k]);
      var i :| 0 <= i < |bodies| && BodyRequests(bodies[i], k, l[k]);
      var w, f :| w in CollectionIds(bodies[i]) && f in bodies[i].fields && k == GenericKey(w, f)
        && l[k] == bodies[i].fields[f];
      RequestWithinDepth(bodies, i, f);
    }
  }

  /** The greatest depth of a level drops in each round, also on cyclic data. */
  lemma {:induction false} NextWithin(l: Level, data: map<Key, Raw>, l': Level, n: nat)
    requires IsNext(l, data, l') && LevelWithin(l, n) && Open(l)
    ensures n > 0 && LevelWithin(l', n - 1)
  {
    var o :| o in l && !l[o].Leaf?;
    assert Depth(l[o]) > 0;
    forall k | k in l' ensures Depth(l'[k]) <= n - 1 {
      assert ReachedFrom(l, data, k, l'[k]);
      var p :| p in l && Follows(l[p], p, Lookup(data, p), k, l'[k]);
      LeafFollowsNothing(l[p], p, Lookup(data, p), k, l'[k]);
    }
  }

  lemma {:induction false} BuildDepth(bodies: seq<Body>, datas: seq<map<Key, Raw>>, levels: seq<Level>, i: nat)
    requires IsPartial(bodies, datas, levels) && i < |levels|
    ensures i <= RequestDepth(bodies) && LevelWithin(levels[i], RequestDepth(bodies) - i)
  {
    if i == 0 {
      StartWithin(bodies, levels[0]);
    } else {
      BuildDepth(bodies, datas, levels, i - 1);
      assert IsRound(datas, levels, i - 1);
      NextWithin(levels[i - 1], datas[i - 1], levels[i], RequestDepth(bodies) - (i - 1));
    }
  }

  /** A build loads data at most as often as the request is deep, whatever the data is. */
  lemma {:induction false} BuildIsShort(bodies: seq<Body>, datas: seq<map<Key, Raw>>, levels: seq<Level>)
    requires IsBuild(bodies, datas, levels)
    ensures |datas| <= RequestDepth(bodies)
  {
    BuildDepth(bodies, datas, levels, |datas|);
  }

  // ---- A request that loses keys ----

  /** Two bodies that describe the same key: the second one does not follow it. */
  const CLASHING: seq<Body> :=
    [Body([1], "a", map["r" := Generic(map["x" := Leaf])]), Body([1], "a", map["r" := Leaf])]

  lemma {:induction false} ClashKey()
    ensures CollectionId("a", 1) == "a/1" && GenericKey("a/1", "r") == "a/1/r" && GenericKey("b/1", "x") == "b/1/x"
  {
    assert Digits(1) == ['1'];
    assert CollectionId("a", 1) == "a" + "/" + "1" == "a/1";
  }

  lemma {:induction false} ClashingBody(b: Body, d: Desc, k: Key, e: Desc)
    requires b == Body([1], "a", map["r" := d])
    ensures BodyRequests(b, k, e) <==> k == "a/1/r" && e == d
  {
    ClashKey();
    var cids := CollectionIds(b);
    assert cids == ["a/1"] && "a/1" in cids && "r" in b.fields;
  }

  lemma {:induction false} ClashingRequests(k: Key, e: Desc)
    ensures Requests(CLASHING, k, e) <==> k == "a/1/r" && (e == Generic(map["x" := Leaf]) || e == Leaf)
  {
    var d := Generic(map["x" := Leaf]);
    ClashingBody(CLASHING[0], d, k, e);
    ClashingBody(CLASHING[1], Leaf, k, e);
    assert Requests(CLASHING, k, e) <==> BodyRequests(CLASHING[0], k, e) || BodyRequests(CLASHING[1], k, e);
  }

  lemma {:induction false} ClashFollows(d: Desc)
    requires d == Generic(map["x" := Leaf])
    ensures Follows(d, "a/1/r", Doc(Str("b/1")), "b/1/x", Leaf)
  {
    ClashKey();
    assert ReadValue(d, Doc(Str("b/1"))).value == ["b/1"];
    assert "b/1" in ["b/1"] && "x" in d.fields;
  }

  /** The second body wins in every start. */
  lemma {:induction false} ClashStart(l: Level)
    requires IsStart(CLASHING, l)
    ensures l == map["a/1/r" := Leaf]
  {
    ClashingRequests("a/1/r", Leaf);
    assert "a/1/r" in l;
    forall k | k in l ensures k == "a/1/r" && l[k] == Leaf {
      WinnerIsRequested(CLASHING, k, l[k]);
      ClashingRequests(k, l[k]);
      ClashingBody(CLASHING[1], Leaf, k, Leaf);
    }
  }

  lemma {:induction false} ClashingIsShort(datas: seq<map<Key, Raw>>, levels: seq<Level>)
    requires IsPartial(CLASHING, datas, levels)
    ensures datas == [] && IsBuild(CLASHING, datas, levels) && !Built(levels, "b/1/x")
  {
    ClashStart(levels[0]);
    assert |datas| > 0 ==> IsRound(datas, levels, 0);
  }

  lemma {:induction false} ClashingMeans(snap: Key -> Raw)
    requires snap("a/1/r") == Doc(Str("b/1"))
    ensures RequestDenotes(CLASHING, snap, "b/1/x")
  {
    var d := Generic(map["x" := Leaf]);
    ClashingRequests("a/1/r", d);
    ClashFollows(d);
    DenotesBelow(d, "a/1/r", snap, "b/1/x", Leaf, "b/1/x");
  }

  /** Every build of this request has one level, and misses a key of its meaning. */
  lemma {:induction false} ClashingBodiesLoseKeys(datas: seq<map<Key, Raw>>, levels: seq<Level>, snap: Key -> Raw)
    requires IsPartial(CLASHING, datas, levels) && snap("a/1/r") == Doc(Str("b/1"))
    ensures datas == [] && IsBuild(CLASHING, datas, levels)
    ensures RequestDenotes(CLASHING, snap, "b/1/x") && !Built(levels, "b/1/x")
  {
    ClashingIsShort(datas, levels);
    ClashingMeans(snap);
  }
}
