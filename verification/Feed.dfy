/** The update feed: parsing a redis stream reply, the cursor, and the loop that applies it. */
module Feed {
  import opened Values
  import opened StoreLog
  import opened CacheSpec
  import opened CacheObject
  import GetMany

  /** A value as the redis library returns it. */
  datatype Reply = NilReply | Number(n: int) | Text(s: string) | Blob(s: string) | Items(items: seq<Reply>)

  /** A stream entry: its id and its key-value pairs, in order. */
  datatype Entry = Entry(id: string, pairs: seq<(Key, string)>)

  /** What `stream` returns: an id and data, the nil error, or another error. */
  datatype Parsed = Parsed(id: string, data: Message) | Nothing | Malformed

  function ToStr(r: Reply): Option<string> {
    match r
    case Text(s) => Some(s)
    case Blob(s) => Some(s)
    case _ => None
  }

  function Slashes(s: string): nat {
    if s == [] then 0 else Slashes(s[..|s| - 1]) + if s[|s| - 1] == '/' then 1 else 0
  }

  lemma {:induction false} SlashesConcat(a: string, b: string)
    ensures Slashes(a + b) == Slashes(a) + Slashes(b)
  {
    if b == [] {
      assert a + b == a;
    } else {
      var n := |b| - 1;
      assert (a + b)[..|a + b| - 1] == a + b[..n] && (a + b)[|a + b| - 1] == b[n];
      SlashesConcat(a, b[..n]);
    }
  }

  lemma {:induction false} NoSlashes(s: string)
    ensures Slashes(s) == 0 <==> '/' !in s
  {
    if s != [] {
      var n := |s| - 1;
      NoSlashes(s[..n]);
      assert s == s[..n] + [s[n]];
    }
  }

  /** A key with a collection, an id and a field, none of which has a slash. */
  ghost predicate ThreeParts(k: Key) {
    exists c, i, f :: '/' !in c && '/' !in i && '/' !in f && k == c + "/" + i + "/" + f
  }

  lemma {:induction false} OneSlash()
    ensures Slashes("/") == 1
  {
    assert "/"[..0] == "";
  }

  lemma {:induction false} CutSlash(k: Key) returns (a: string, b: string)
    requires Slashes(k) > 0
    ensures k == a + "/" + b && '/' !in a && Slashes(b) == Slashes(k) - 1
  {
    NoSlashes(k);
    var n := GetMany.FirstSlash(k);
    assert k[..|k|] == k;
    a, b := k[..n], k[n + 1..];
    GetMany.CutAt(k, n);
    NoSlashes(a);
    OneSlash();
    SlashesConcat(a + "/", b);
    SlashesConcat(a, "/");
  }

  /** The parser's test for a key is that it has exactly three parts. */
  lemma {:induction false} TwoSlashesIff(k: Key)
    ensures Slashes(k) == 2 <==> ThreeParts(k)
  {
    if Slashes(k) == 2 {
      var c, rest := CutSlash(k);
      var i, f := CutSlash(rest);
      NoSlashes(f);
      assert c + "/" + (i + "/" + f) == c + "/" + i + "/" + f;
    }
    if ThreeParts(k) {
      var c, i, f :| '/' !in c && '/' !in i && '/' !in f && k == c + "/" + i + "/" + f;
      PartsHaveTwoSlashes(c, i, f);
    }
  }

  lemma {:induction false} PartsHaveTwoSlashes(c: string, i: string, f: string)
    requires '/' !in c && '/' !in i && '/' !in f
    ensures Slashes(c + "/" + i + "/" + f) == 2
  {
    NoSlashes(c);
    NoSlashes(i);
    NoSlashes(f);
    OneSlash();
    SlashesConcat(c, "/");
    SlashesConcat(c + "/", i);
    SlashesConcat(c + "/" + i, "/");
    SlashesConcat(c + "/" + i + "/", f);
  }

  method CountSlashes(s: string) returns (n: nat)
    ensures n == Slashes(s)
  {
    n := 0;
    for i := 0 to |s|
      invariant n == Slashes(s[..i])
    {
      assert s[..i + 1][..i] == s[..i];
      if s[i] == '/' {
        n := n + 1;
      }
    }
    assert s[..|s|] == s;
  }

  // ---- The meaning of a reply ----

  predicate IsPair(key: Reply, value: Reply) {
    ToStr(key).Some? && Slashes(ToStr(key).value) == 2 && ToStr(value).Some?
  }

  /** A flat list of keys and values in turn. */
  predicate ArePairs(kv: seq<Reply>) {
    kv == [] || (|kv| >= 2 && IsPair(kv[0], kv[1]) && ArePairs(kv[2..]))
  }

  function Pairs(kv: seq<Reply>): seq<(Key, string)>
    requires ArePairs(kv)
  {
    if kv == [] then [] else [(ToStr(kv[0]).value, ToStr(kv[1]).value)] + Pairs(kv[2..])
  }

  predicate IsEntry(r: Reply) {
    && r.Items? && |r.items| == 2
    && ToStr(r.items[0]).Some?
    && r.items[1].Items? && ArePairs(r.items[1].items)
  }

  function EntryOf(r: Reply): Entry
    requires IsEntry(r)
  {
    Entry(ToStr(r.items[0]).value, Pairs(r.items[1].items))
  }

  predicate AreEntries(rs: seq<Reply>) {
    rs == [] || (IsEntry(rs[|rs| - 1]) && AreEntries(rs[..|rs| - 1]))
  }

  /** The pairs of one entry as a message: the last value of a key wins. */
  function MessageOf(read: string -> Raw, pairs: seq<(Key, string)>): Message {
    if pairs == [] then map[]
    else (map[pairs[0].0 := read(pairs[0].1)]) + MessageOf(read, pairs[1..])
  }

  function Messages(read: string -> Raw, es: seq<Entry>): seq<Message> {
    if es == [] then [] else Messages(read, es[..|es| - 1]) + [MessageOf(read, es[|es| - 1].pairs)]
  }

  lemma {:induction false} MessagesConcat(read: string -> Raw, a: seq<Entry>, b: seq<Entry>)
    ensures Messages(read, a + b) == Messages(read, a) + Messages(read, b)
    decreases |b|
  {
    if b == [] {
      assert a + b == a;
    } else {
      assert (a + b)[..|a + b| - 1] == a + b[..|b| - 1];
      MessagesConcat(read, a, b[..|b| - 1]);
    }
  }

  function LastId(es: seq<Entry>): string {
    if es == [] then "" else es[|es| - 1].id
  }

  /** The reply holds one stream with a list of entries. */
  predicate IsStream(r: Reply) {
    && r.Items? && |r.items| > 0
    && r.items[0].Items? && |r.items[0].items| == 2
    && r.items[0].items[1].Items?
  }

  function Entries(rs: seq<Reply>): seq<Entry>
    requires AreEntries(rs)
  {
    if rs == [] then [] else Entries(rs[..|rs| - 1]) + [EntryOf(rs[|rs| - 1])]
  }

  /** The message-by-message reading of a reply, with the id of its last message. */
  function Meaning(read: string -> Raw, r: Reply): Parsed {
    if r.NilReply? then Nothing
    else if !IsStream(r) || !AreEntries(r.items[0].items[1].items) then Malformed
    else
      var es := Entries(r.items[0].items[1].items);
      Parsed(LastId(es), Merge(Messages(read, es)))
  }

  // ---- The same, said of the parts of a reply ----

  /** Redis sends a text as a simple or as a bulk string. */
  ghost predicate Spells(r: Reply, s: string) {
    r == Text(s) || r == Blob(s)
  }

  /** A flat list of keys and values in turn, each key with three parts. */
  ghost predicate SpellsPairs(kv: seq<Reply>, pairs: seq<(Key, string)>) {
    && |kv| == 2 * |pairs|
    && forall i :: 0 <= i < |pairs| ==> SpellsPair(kv[2 * i], kv[2 * i + 1], pairs[i])
  }

  ghost predicate SpellsPair(key: Reply, value: Reply, pair: (Key, string)) {
    Spells(key, pair.0) && ThreeParts(pair.0) && Spells(value, pair.1)
  }

  ghost predicate SpellsEntry(r: Reply, e: Entry) {
    && r.Items? && |r.items| == 2 && Spells(r.items[0], e.id)
    && r.items[1].Items? && SpellsPairs(r.items[1].items, e.pairs)
  }

  ghost predicate SpellsEntries(rs: seq<Reply>, es: seq<Entry>) {
    |rs| == |es| && forall i :: 0 <= i < |rs| ==> SpellsEntry(rs[i], es[i])
  }

  lemma {:induction false} IsPairIff(key: Reply, value: Reply, pair: (Key, string))
    ensures SpellsPair(key, value, pair) <==> IsPair(key, value) && (ToStr(key).value, ToStr(value).value) == pair
  {
    TwoSlashesIff(pair.0);
  }

  lemma {:induction false} PairsTail(kv: seq<Reply>, pairs: seq<(Key, string)>)
    requires |kv| >= 2 && pairs != []
    ensures SpellsPairs(kv, pairs) <==> SpellsPair(kv[0], kv[1], pairs[0]) && SpellsPairs(kv[2..], pairs[1..])
  {
    if SpellsPair(kv[0], kv[1], pairs[0]) && SpellsPairs(kv[2..], pairs[1..]) {
      forall i | 0 <= i < |pairs| ensures SpellsPair(kv[2 * i], kv[2 * i + 1], pairs[i]) {
        if i > 0 {
          assert SpellsPair(kv[2..][2 * (i - 1)], kv[2..][2 * (i - 1) + 1], pairs[1..][i - 1]);
        }
      }
    }
    if SpellsPairs(kv, pairs) {
      assert SpellsPair(kv[2 * 0], kv[2 * 0 + 1], pairs[0]);
      forall i | 0 <= i < |pairs| - 1 ensures SpellsPair(kv[2..][2 * i], kv[2..][2 * i + 1], pairs[1..][i]) {
        assert SpellsPair(kv[2 * (i + 1)], kv[2 * (i + 1) + 1], pairs[i + 1]);
      }
    }
  }

  /** The list is read as these pairs. */
  ghost predicate ReadsPairs(kv: seq<Reply>, pairs: seq<(Key, string)>) {
    ArePairs(kv) && Pairs(kv) == pairs
  }

  lemma {:induction false} ReadsTail(kv: seq<Reply>, pairs: seq<(Key, string)>)
    requires |kv| >= 2 && pairs != []
    ensures ReadsPairs(kv, pairs)
        <==> && IsPair(kv[0], kv[1]) && (ToStr(kv[0]).value, ToStr(kv[1]).value) == pairs[0]
             && ReadsPairs(kv[2..], pairs[1..])
  {
    if ArePairs(kv) {
      var first := (ToStr(kv[0]).value, ToStr(kv[1]).value);
      assert Pairs(kv) == [first] + Pairs(kv[2..]);
      assert pairs == [pairs[0]] + pairs[1..];
    }
  }

  lemma {:induction false} ArePairsIff(kv: seq<Reply>, pairs: seq<(Key, string)>)
    ensures SpellsPairs(kv, pairs) <==> ReadsPairs(kv, pairs)
    decreases |kv|
  {
    if |kv| >= 2 && pairs != [] {
      IsPairIff(kv[0], kv[1], pairs[0]);
      PairsTail(kv, pairs);
      ReadsTail(kv, pairs);
      ArePairsIff(kv[2..], pairs[1..]);
    }
  }

  lemma {:induction false} IsEntryIff(r: Reply, e: Entry)
    ensures SpellsEntry(r, e) <==> IsEntry(r) && EntryOf(r) == e
  {
    if r.Items? && |r.items| == 2 && r.items[1].Items? {
      ArePairsIff(r.items[1].items, e.pairs);
    }
  }

  /** A list of replies is read exactly as the entries that it spells. */
  lemma {:induction false} AreEntriesIff(rs: seq<Reply>, es: seq<Entry>)
    ensures SpellsEntries(rs, es) <==> AreEntries(rs) && Entries(rs) == es
    decreases |rs|
  {
    if rs != [] && es != [] {
      var n, m := |rs| - 1, |es| - 1;
      IsEntryIff(rs[n], es[m]);
      AreEntriesIff(rs[..n], es[..m]);
      assert es == es[..m] + [es[m]];
      if SpellsEntries(rs[..n], es[..m]) && SpellsEntry(rs[n], es[m]) {
        forall i | 0 <= i < |rs| ensures SpellsEntry(rs[i], es[i]) {
          assert i < n ==> SpellsEntry(rs[..n][i], es[..m][i]);
        }
      }
      if AreEntries(rs) && Entries(rs) == es {
        assert Entries(rs)[..|Entries(rs)| - 1] == Entries(rs[..n]);
      }
    }
  }

  /** The last pair of a key gives its value. */
  lemma {:induction false} MessageHasLastPair(read: string -> Raw, pairs: seq<(Key, string)>, i: nat)
    requires i < |pairs| && forall j :: i < j < |pairs| ==> pairs[j].0 != pairs[i].0
    ensures pairs[i].0 in MessageOf(read, pairs) && MessageOf(read, pairs)[pairs[i].0] == read(pairs[i].1)
  {
    if i > 0 {
      assert forall j :: i - 1 < j < |pairs[1..]| ==> pairs[1..][j] == pairs[j + 1];
      MessageHasLastPair(read, pairs[1..], i - 1);
    } else {
      MessageHasOnlyPairs(read, pairs[1..], pairs[0].0);
    }
  }

  lemma {:induction false} MessageHasOnlyPairs(read: string -> Raw, pairs: seq<(Key, string)>, k: Key)
    ensures k in MessageOf(read, pairs) <==> exists i :: 0 <= i < |pairs| && pairs[i].0 == k
  {
    if pairs != [] {
      MessageHasOnlyPairs(read, pairs[1..], k);
      if exists i :: 0 <= i < |pairs| && pairs[i].0 == k {
        var i :| 0 <= i < |pairs| && pairs[i].0 == k;
        assert i > 0 ==> pairs[1..][i - 1].0 == k;
      }
    }
  }

  /** The first of the reply's items is a stream: a name and a list of these elements. */
  ghost predicate HasElements(r: Reply, elements: seq<Reply>) {
    && r.Items? && |r.items| > 0 && r.items[0].Items? && |r.items[0].items| == 2
    && r.items[0].items[1] == Items(elements)
  }

  /**
   * The nil reply is nothing. A reply whose first stream spells some entries is read as these, with
   * the id of the last one. Every other reply is malformed.
   */
  lemma {:induction false} MeaningIff(read: string -> Raw, r: Reply, elements: seq<Reply>, es: seq<Entry>)
    ensures Meaning(read, r) == Nothing <==> r == NilReply
    ensures HasElements(r, elements) && SpellsEntries(elements, es) ==>
      Meaning(read, r) == Parsed(if es == [] then "" else es[|es| - 1].id, Merge(Messages(read, es)))
    ensures Meaning(read, r).Parsed? ==> exists rs, fs :: HasElements(r, rs) && SpellsEntries(rs, fs)
  {
    if HasElements(r, elements) {
      AreEntriesIff(elements, es);
    }
    if Meaning(read, r).Parsed? {
      var rs := r.items[0].items[1].items;
      AreEntriesIff(rs, Entries(rs));
      assert HasElements(r, rs) && SpellsEntries(rs, Entries(rs));
    }
  }

  // ---- The parser ----

  lemma {:induction false} EvenPairs(kv: seq<Reply>)
    requires ArePairs(kv)
    ensures |kv| % 2 == 0
  {
    if kv != [] {
      EvenPairs(kv[2..]);
    }
  }

  lemma {:induction false} EntryEven(r: Reply)
    ensures IsEntry(r) ==> |r.items[1].items| % 2 == 0
  {
    if IsEntry(r) {
      EvenPairs(r.items[1].items);
    }
  }

  /** What the pairs make of the data, or nothing if they are malformed. */
  function Folded(read: string -> Raw, data: Message, kv: seq<Reply>): Option<Message> {
    if ArePairs(kv) then Some(data + MessageOf(read, Pairs(kv))) else None
  }

  lemma {:induction false} FoldedNext(read: string -> Raw, data: Message, kv: seq<Reply>)
    requires |kv| >= 2
    ensures !IsPair(kv[0], kv[1]) ==> Folded(read, data, kv) == None
    ensures IsPair(kv[0], kv[1]) ==>
      Folded(read, data, kv) == Folded(read, data[ToStr(kv[0]).value := read(ToStr(kv[1]).value)], kv[2..])
  {
    if ArePairs(kv) {
      assert Pairs(kv)[1..] == Pairs(kv[2..]);
      var data' := data[ToStr(kv[0]).value := read(ToStr(kv[1]).value)];
      assert data + MessageOf(read, Pairs(kv)) == data' + MessageOf(read, Pairs(kv[2..]));
    }
  }

  method ParsePairs(read: string -> Raw, kv: seq<Reply>, start: Message) returns (ok: bool, data: Message)
    requires |kv| % 2 == 0
    ensures ok <==> ArePairs(kv)
    ensures ok ==> data == start + MessageOf(read, Pairs(kv))
  {
    data := start;
    var i := 0;
    while i < |kv| - 1
      invariant 0 <= i <= |kv| && i % 2 == 0
      invariant Folded(read, data, kv[i..]) == Folded(read, start, kv)
    {
      FoldedNext(read, data, kv[i..]);
      assert kv[i..][2..] == kv[i + 2..];
      var good := CheckPair(kv[i], kv[i + 1]);
      if !good {
        return false, data;
      }
      data := data[ToStr(kv[i]).value := read(ToStr(kv[i + 1]).value)];
      i := i + 2;
    }
    assert data + map[] == data;
    return true, data;
  }

  method CheckPair(key: Reply, value: Reply) returns (good: bool)
    ensures good == IsPair(key, value)
  {
    var keyText := ToStr(key);
    if keyText.None? {
      return false;
    }
    var slashes := CountSlashes(keyText.value);
    return slashes == 2 && ToStr(value).Some?;
  }

  method Stream(read: string -> Raw, reply: Reply) returns (p: Parsed)
    ensures p == Meaning(read, reply)
  {
    if reply.NilReply? {
      return Nothing;
    }
    if !reply.Items? || |reply.items| == 0 || !reply.items[0].Items? || |reply.items[0].items| != 2 {
      return Malformed;
    }
    if !reply.items[0].items[1].Items? {
      return Malformed;
    }
    var elements := reply.items[0].items[1].items;
    p := ParseEntries(read, elements);
  }

  method ParseEntries(read: string -> Raw, elements: seq<Reply>) returns (p: Parsed)
    ensures !AreEntries(elements) ==> p == Malformed
    ensures AreEntries(elements) ==>
      p == Parsed(LastId(Entries(elements)), Merge(Messages(read, Entries(elements))))
  {
    var id, data := "", map[];
    for i := 0 to |elements|
      invariant AreEntries(elements[..i])
      invariant id == LastId(Entries(elements[..i]))
      invariant data == Merge(Messages(read, Entries(elements[..i])))
    {
      var element := elements[i];
      EntryEven(element);
      EntriesAt(elements, i);
      if !element.Items? || |element.items| != 2 {
        return Malformed;
      }
      var idText := ToStr(element.items[0]);
      if idText.None? || !element.items[1].Items? || |element.items[1].items| % 2 != 0 {
        return Malformed;
      }
      var ok, more := ParsePairs(read, element.items[1].items, data);
      if !ok {
        return Malformed;
      }
      MessagesNext(read, elements, i);
      id, data := idText.value, more;
    }
    assert elements[..|elements|] == elements;
    return Parsed(id, data);
  }

  lemma {:induction false} EntriesAt(rs: seq<Reply>, i: nat)
    requires i < |rs|
    ensures AreEntries(rs) ==> IsEntry(rs[i])
  {
    if i < |rs| - 1 {
      EntriesAt(rs[..|rs| - 1], i);
    }
  }

  lemma {:induction false} MessagesNext(read: string -> Raw, elements: seq<Reply>, i: nat)
    requires i < |elements| && AreEntries(elements[..i]) && IsEntry(elements[i])
    ensures AreEntries(elements[..i + 1])
    ensures LastId(Entries(elements[..i + 1])) == EntryOf(elements[i]).id
    ensures Merge(Messages(read, Entries(elements[..i + 1])))
         == Merge(Messages(read, Entries(elements[..i]))) + MessageOf(read, EntryOf(elements[i]).pairs)
  {
    assert elements[..i + 1][..i] == elements[..i];
    var es := Entries(elements[..i + 1]);
    assert es[..|es| - 1] == Entries(elements[..i]);
    var ms := Messages(read, es);
    assert ms[..|ms| - 1] == Messages(read, es[..|es| - 1]);
  }

  // ---- Encoding: what the server sends for a segment of its log ----

  function EncodePairs(pairs: seq<(Key, string)>): seq<Reply> {
    if pairs == [] then [] else [Blob(pairs[0].0), Blob(pairs[0].1)] + EncodePairs(pairs[1..])
  }

  function EncodeEntry(e: Entry): Reply {
    Items([Blob(e.id), Items(EncodePairs(e.pairs))])
  }

  function EncodeEntries(es: seq<Entry>): seq<Reply> {
    if es == [] then [] else EncodeEntries(es[..|es| - 1]) + [EncodeEntry(es[|es| - 1])]
  }

  function EncodeLog(es: seq<Entry>): Reply {
    Items([Items([Blob("ModifiedFields"), Items(EncodeEntries(es))])])
  }

  /** The keys of an entry have three parts. */
  predicate GoodPairs(pairs: seq<(Key, string)>) {
    pairs == [] || (Slashes(pairs[0].0) == 2 && GoodPairs(pairs[1..]))
  }

  /** Every key of these entries has three parts. */
  predicate GoodLog(es: seq<Entry>) {
    forall i :: 0 <= i < |es| ==> GoodPairs(es[i].pairs)
  }

  /** An entry is well-formed exactly if all its keys have three parts. */
  lemma {:induction false} GoodPairsIff(pairs: seq<(Key, string)>)
    ensures GoodPairs(pairs) <==> forall i :: 0 <= i < |pairs| ==> ThreeParts(pairs[i].0)
  {
    if pairs != [] {
      TwoSlashesIff(pairs[0].0);
      GoodPairsIff(pairs[1..]);
      if GoodPairs(pairs) {
        forall i | 0 <= i < |pairs| ensures ThreeParts(pairs[i].0) {
          assert i > 0 ==> ThreeParts(pairs[1..][i - 1].0);
        }
      }
    }
  }

  /** The server gives every entry an id. */
  ghost predicate HasIds(log: seq<Entry>) {
    forall i :: 0 <= i < |log| ==> log[i].id != ""
  }

  lemma {:induction false} GoodJoined(log: seq<Entry>, p: nat, q: nat, r: nat)
    requires p <= q <= r <= |log| && GoodLog(log[p..q]) && GoodLog(log[q..r])
    ensures GoodLog(log[p..r])
  {
    var a, b, c := log[p..q], log[q..r], log[p..r];
    forall i | 0 <= i < |c| ensures GoodPairs(c[i].pairs) {
      assert c[i] == if i < |a| then a[i] else b[i - |a|];
    }
  }

  lemma {:induction false} PairsRoundTrip(pairs: seq<(Key, string)>)
    ensures ArePairs(EncodePairs(pairs)) <==> GoodPairs(pairs)
    ensures GoodPairs(pairs) ==> Pairs(EncodePairs(pairs)) == pairs
  {
    if pairs != [] {
      PairsRoundTrip(pairs[1..]);
      var kv := EncodePairs(pairs);
      assert kv[2..] == EncodePairs(pairs[1..]);
      assert pairs == [pairs[0]] + pairs[1..];
    }
  }

  lemma {:induction false} EntryRoundTrip(e: Entry)
    ensures IsEntry(EncodeEntry(e)) <==> GoodPairs(e.pairs)
    ensures GoodPairs(e.pairs) ==> EntryOf(EncodeEntry(e)) == e
  {
    PairsRoundTrip(e.pairs);
  }

  /** Parsing undoes the server's encoding; one key without three parts spoils the whole reply. */
  lemma {:induction false} LogRoundTrip(read: string -> Raw, es: seq<Entry>)
    ensures Meaning(read, EncodeLog(es))
         == if GoodLog(es) then Parsed(LastId(es), Merge(Messages(read, es))) else Malformed
  {
    EntriesRoundTrip(es);
    var r := EncodeLog(es);
    assert IsStream(r) && r.items[0].items[1].items == EncodeEntries(es);
  }

  lemma {:induction false} GoodLast(es: seq<Entry>)
    requires es != []
    ensures GoodLog(es) <==> GoodLog(es[..|es| - 1]) && GoodPairs(es[|es| - 1].pairs)
  {
    var n := |es| - 1;
    assert forall i :: 0 <= i < n ==> es[..n][i] == es[i];
    if GoodLog(es[..n]) && GoodPairs(es[n].pairs) {
      forall i | 0 <= i < |es| ensures GoodPairs(es[i].pairs) {
        assert i < n ==> GoodPairs(es[..n][i].pairs);
      }
    }
  }

  lemma {:induction false} EntriesRoundTrip(es: seq<Entry>)
    ensures AreEntries(EncodeEntries(es)) <==> GoodLog(es)
    ensures GoodLog(es) ==> Entries(EncodeEntries(es)) == es
  {
    if es != [] {
      var n := |es| - 1;
      EntriesRoundTrip(es[..n]);
      EntryRoundTrip(es[n]);
      GoodLast(es);
      var rs := EncodeEntries(es);
      assert rs[..|rs| - 1] == EncodeEntries(es[..n]);
      assert es == es[..n] + [es[n]];
    }
  }

  // ---- The cursor ----

  /** The result of the connection's XREAD. */
  datatype Response = ConnectionError | Response(reply: Reply)

  /** What `Update` returns to its caller. */
  datatype Delivery = Delivered(data: Message) | UpdateError

  function NextCursor(read: string -> Raw, lastId: string, r: Response): string {
    match r
    case ConnectionError => lastId
    case Response(reply) =>
      match Meaning(read, reply)
      case Parsed(id, _) => if id != "" then id else lastId
      case _ => lastId
  }

  function Deliver(read: string -> Raw, r: Response): Delivery {
    match r
    case ConnectionError => UpdateError
    case Response(reply) =>
      match Meaning(read, reply)
      case Parsed(_, data) => Delivered(data)
      case Nothing => Delivered(map[])
      case Malformed => UpdateError
  }

  class Service {
    var lastId: string

    constructor ()
      ensures lastId == ""
    {
      lastId := "";
    }

    method Update(read: string -> Raw, response: Response) returns (d: Delivery)
      modifies this
      ensures lastId == NextCursor(read, old(lastId), response)
      ensures d == Deliver(read, response)
    {
      if response.ConnectionError? {
        return UpdateError;
      }
      var p := Stream(read, response.reply);
      match p {
        case Nothing => return Delivered(map[]);
        case Malformed => return UpdateError;
        case Parsed(id, data) =>
          if id != "" {
            lastId := id;
          }
          return Delivered(data);
      }
    }
  }

  /** The topic that the listener of the datastore publishes to; `seen` is the cache at each publication. */
  class Topic {
    var published: seq<set<Key>>
    ghost var seen: seq<CacheState>

    constructor ()
      ensures published == [] && seen == []
    {
      published, seen := [], [];
    }

    method Publish(keys: set<Key>, ghost cache: Cache)
      modifies this
      ensures published == old(published) + [keys]
      ensures seen == old(seen) + [cache.State()]
    {
      published := published + [keys];
      seen := seen + [cache.State()];
    }
  }

  /** One turn of `receiveKeyChanges`: what is published is in the cache already. */
  method ReceiveOnce(service: Service, cache: Cache, topic: Topic, read: string -> Raw, response: Response)
    requires Valid(cache.State())
    modifies service, cache, topic
    ensures Valid(cache.State())
    ensures service.lastId == NextCursor(read, old(service.lastId), response)
    ensures Deliver(read, response).UpdateError? ==>
      && cache.State() == old(cache.State()) && service.lastId == old(service.lastId)
      && topic.published == old(topic.published) && topic.seen == old(topic.seen)
    ensures Deliver(read, response).Delivered? ==>
      && cache.State() == CacheSpec.SetIfExist(old(cache.State()), Deliver(read, response).data)
      && topic.published == old(topic.published) + [Deliver(read, response).data.Keys]
      && topic.seen == old(topic.seen) + [cache.State()]
  {
    var d := service.Update(read, response);
    if d.UpdateError? {
      return;
    }
    cache.SetIfExist(d.data);
    topic.Publish(d.data.Keys, cache);
  }

  // ---- Whole feeds ----

  /** The cursor stands behind the first `p` entries. */
  ghost predicate At(log: seq<Entry>, cursor: string, p: nat) {
    0 < p <= |log| && log[p - 1].id == cursor
  }

  /** How the server answers one XREAD: an error, a timeout, garbage, or up to ten entries. */
  datatype Exchange = Breaks | TimesOut | Garbled(reply: Reply) | Sends(count: nat)

  ghost predicate Possible(read: string -> Raw, log: seq<Entry>, p: nat, e: Exchange) {
    match e
    case Sends(n) => n <= 10 && p + n <= |log|
    case Garbled(r) => Meaning(read, r).Malformed?
    case _ => true
  }

  function ResponseTo(log: seq<Entry>, p: nat, e: Exchange): Response
    requires e.Sends? ==> p + e.count <= |log|
  {
    match e
    case Breaks => ConnectionError
    case TimesOut => Response(NilReply)
    case Garbled(r) => Response(r)
    case Sends(n) => Response(EncodeLog(log[p..p + n]))
  }

  /** The entries that an exchange can consume: what was sent, unless a key spoils it. */
  function Count(log: seq<Entry>, p: nat, e: Exchange): nat
    requires e.Sends? ==> p + e.count <= |log|
  {
    if e.Sends? && GoodLog(log[p..p + e.count]) then e.count else 0
  }

  /** The data of one delivery, as a list of zero or one batches. */
  function Batch(read: string -> Raw, r: Response): seq<Message> {
    var d := Deliver(read, r);
    if d.Delivered? then [d.data] else []
  }

  /** One call of `Update`: how many entries it took, the cursor before and after, the batch delivered. */
  datatype Turn = Turn(count: nat, from: string, to: string, batch: seq<Message>)

  /** What `Update` makes of the exchange `e`. */
  ghost predicate Makes(read: string -> Raw, log: seq<Entry>, p: nat, e: Exchange, t: Turn) {
    && Possible(read, log, p, e)
    && t.count == Count(log, p, e)
    && t.to == NextCursor(read, t.from, ResponseTo(log, p, e))
    && t.batch == Batch(read, ResponseTo(log, p, e))
  }

  ghost predicate Real(read: string -> Raw, log: seq<Entry>, p: nat, t: Turn) {
    exists e :: Makes(read, log, p, e, t)
  }

  lemma {:induction false} MessagesPrefix(read: string -> Raw, es: seq<Entry>, i: nat)
    requires i <= |es|
    ensures |Messages(read, es)| == |es|
    ensures Messages(read, es)[..i] == Messages(read, es[..i])
    decreases |es|
  {
    if i < |es| {
      var n := |es| - 1;
      MessagesPrefix(read, es[..n], i);
      assert es[..n][..i] == es[..i];
    } else {
      assert es[..i] == es;
      if es != [] {
        MessagesPrefix(read, es[..|es| - 1], 0);
      }
    }
  }

  /** The messages of a segment of the log are a segment of its messages. */
  lemma {:induction false} MessagesSegment(read: string -> Raw, es: seq<Entry>, i: nat, j: nat)
    requires i <= j <= |es|
    ensures |Messages(read, es)| == |es|
    ensures Messages(read, es)[i..j] == Messages(read, es[i..j])
  {
    MessagesPrefix(read, es, j);
    MessagesPrefix(read, es[..j], i);
    assert es[..j] == es[..i] + es[i..j] && es[..j][..i] == es[..i];
    MessagesConcat(read, es[..i], es[i..j]);
  }

  /** The turn consumed the entries right behind its cursor, and delivered the merge of their messages. */
  ghost predicate Consumed(log: seq<Entry>, ms: seq<Message>, p: nat, t: Turn) {
    var q := p + t.count;
    && |ms| == |log| && At(log, t.from, p) && At(log, t.to, q) && GoodLog(log[p..q])
    && Delivers(ms, p, t) && (t.batch == [] ==> t.to == t.from)
  }

  /** The turn delivered the merge of the next messages, or nothing if it took none. */
  ghost predicate Delivers(ms: seq<Message>, p: nat, t: Turn) {
    var q := p + t.count;
    q <= |ms| && (t.batch == [Merge(ms[p..q])] || (t.batch == [] && q == p))
  }

  lemma {:induction false} SendsDelivers(read: string -> Raw, es: seq<Entry>, reply: Reply)
    requires reply == EncodeLog(es)
    ensures Batch(read, Response(reply)) == if GoodLog(es) then [Merge(Messages(read, es))] else []
  {
    LogRoundTrip(read, es);
  }

  lemma {:induction false} SendsMovesCursor(read: string -> Raw, es: seq<Entry>, reply: Reply, from: string)
    requires HasIds(es) && reply == EncodeLog(es)
    ensures NextCursor(read, from, Response(reply)) == if es == [] || !GoodLog(es) then from else es[|es| - 1].id
  {
    LogRoundTrip(read, es);
  }

  /** The turn took nothing and changed nothing. */
  ghost predicate Spoiled(t: Turn) {
    t.count == 0 && t.to == t.from && t.batch == []
  }

  /** The turn took all these entries, or none of them if a key has not three parts. */
  ghost predicate Takes(read: string -> Raw, es: seq<Entry>, t: Turn) {
    if GoodLog(es) then
      && t.count == |es| && t.batch == [Merge(Messages(read, es))]
      && t.to == if es == [] then t.from else es[|es| - 1].id
    else Spoiled(t)
  }

  /** The turn is what `Update` makes of a reply with these entries. */
  ghost predicate Reads(read: string -> Raw, es: seq<Entry>, t: Turn) {
    && t.count == (if GoodLog(es) then |es| else 0)
    && t.to == NextCursor(read, t.from, Response(EncodeLog(es)))
    && t.batch == Batch(read, Response(EncodeLog(es)))
  }

  lemma {:induction false} SendsTakes(read: string -> Raw, es: seq<Entry>, t: Turn)
    requires HasIds(es) && Reads(read, es, t)
    ensures Takes(read, es, t)
  {
    SendsDelivers(read, es, EncodeLog(es));
    SendsMovesCursor(read, es, EncodeLog(es), t.from);
  }

  lemma {:induction false} TakenCursor(log: seq<Entry>, p: nat, es: seq<Entry>, from: string, to: string)
    requires p + |es| <= |log| && es == log[p..p + |es|] && At(log, from, p)
    requires to == if es == [] then from else es[|es| - 1].id
    ensures At(log, to, p + |es|)
  {
  }

  lemma {:induction false} TakenIsConsumed(read: string -> Raw, log: seq<Entry>, ms: seq<Message>, p: nat,
                                           es: seq<Entry>, t: Turn)
    requires ms == Messages(read, log) && p + |es| <= |log| && es == log[p..p + |es|]
    requires At(log, t.from, p) && Takes(read, es, t) && GoodLog(es)
    ensures Consumed(log, ms, p, t)
  {
    TakenCursor(log, p, es, t.from, t.to);
    MessagesSegment(read, log, p, p + |es|);
  }

  lemma {:induction false} SpoiledIsConsumed(log: seq<Entry>, ms: seq<Message>, p: nat, t: Turn)
    requires |ms| == |log| && At(log, t.from, p) && Spoiled(t)
    ensures Consumed(log, ms, p, t)
  {
    assert log[p..p] == [];
  }

  lemma {:induction false} TakesAdvances(read: string -> Raw, log: seq<Entry>, ms: seq<Message>, p: nat, es: seq<Entry>,
                                         t: Turn)
    requires ms == Messages(read, log) && |ms| == |log| && p + |es| <= |log| && es == log[p..p + |es|]
    requires At(log, t.from, p) && Takes(read, es, t)
    ensures Consumed(log, ms, p, t)
  {
    if GoodLog(es) {
      TakenIsConsumed(read, log, ms, p, es, t);
    } else {
      SpoiledIsConsumed(log, ms, p, t);
    }
  }

  lemma {:induction false} MakesReads(read: string -> Raw, log: seq<Entry>, p: nat, n: nat, es: seq<Entry>, t: Turn)
    requires Makes(read, log, p, Sends(n), t) && es == log[p..p + n]
    ensures |es| == n && Reads(read, es, t)
  {
  }

  lemma {:induction false} SegmentHasIds(log: seq<Entry>, p: nat, n: nat, es: seq<Entry>)
    requires HasIds(log) && p + n <= |log| && es == log[p..p + n]
    ensures HasIds(es)
  {
  }

  lemma {:induction false} MakesTakes(read: string -> Raw, log: seq<Entry>, p: nat, n: nat, es: seq<Entry>, t: Turn)
    requires HasIds(es) && Makes(read, log, p, Sends(n), t) && es == log[p..p + n]
    ensures Takes(read, es, t)
  {
    MakesReads(read, log, p, n, es, t);
    SendsTakes(read, es, t);
  }

  lemma {:induction false} SendsAdvances(read: string -> Raw, log: seq<Entry>, ms: seq<Message>,
                                         p: nat, n: nat, t: Turn)
    requires HasIds(log) && ms == Messages(read, log) && |ms| == |log| && p + n <= |log|
    requires At(log, t.from, p) && Makes(read, log, p, Sends(n), t)
    ensures Consumed(log, ms, p, t)
  {
    var es := log[p..p + n];
    SegmentHasIds(log, p, n, es);
    MakesTakes(read, log, p, n, es, t);
    TakesAdvances(read, log, ms, p, es, t);
  }

  lemma {:induction false} IdleAdvances(read: string -> Raw, log: seq<Entry>, ms: seq<Message>, p: nat, e: Exchange,
                                        t: Turn)
    requires |ms| == |log| && At(log, t.from, p) && Makes(read, log, p, e, t) && !e.Sends?
    ensures Consumed(log, ms, p, t)
  {
    IdleDelivers(read, log, p, e, t.from);
    assert ms[p..p] == [] && log[p..p] == [];
  }

  /** One `Update` delivers the merge of the entries behind the cursor and moves the cursor past them. */
  lemma {:induction false} UpdateAdvances(read: string -> Raw, log: seq<Entry>, ms: seq<Message>, p: nat, t: Turn)
    requires HasIds(log) && ms == Messages(read, log) && At(log, t.from, p) && Real(read, log, p, t)
    ensures Consumed(log, ms, p, t)
  {
    var e :| Makes(read, log, p, e, t);
    MessagesPrefix(read, log, 0);
    if e.Sends? {
      SendsAdvances(read, log, ms, p, e.count, t);
    } else {
      IdleAdvances(read, log, ms, p, e, t);
    }
  }

  /** A timeout delivers nothing new, an error delivers nothing; both leave the cursor. */
  lemma {:induction false} IdleDelivers(read: string -> Raw, log: seq<Entry>, p: nat, e: Exchange, from: string)
    requires Possible(read, log, p, e) && !e.Sends?
    ensures NextCursor(read, from, ResponseTo(log, p, e)) == from
    ensures Batch(read, ResponseTo(log, p, e)) == if e.TimesOut? then [map[]] else []
  {
  }

  /** A feed that starts at log position `p`: turns of some kind, each with the cursor of the one before. */
  ghost predicate IsFeed(kind: (nat, Turn) -> bool, p: nat, ts: seq<Turn>)
    decreases |ts|
  {
    ts == [] ||
    (&& kind(p, ts[0])
     && (|ts| > 1 ==> ts[1].from == ts[0].to)
     && IsFeed(kind, p + ts[0].count, ts[1..]))
  }

  /** The calls of `Update` against this log. */
  ghost function Updates(read: string -> Raw, log: seq<Entry>): (nat, Turn) -> bool {
    (p: nat, t: Turn) => Real(read, log, p, t)
  }

  ghost predicate ConsumedInOrder(log: seq<Entry>, ms: seq<Message>, p: nat, ts: seq<Turn>)
    decreases |ts|
  {
    ts == [] ||
    (Consumed(log, ms, p, ts[0]) && ConsumedInOrder(log, ms, p + ts[0].count, ts[1..]))
  }

  /** Every turn of this kind consumes what is behind its cursor. */
  ghost predicate Consuming(kind: (nat, Turn) -> bool, log: seq<Entry>, ms: seq<Message>) {
    forall p: nat, t: Turn :: kind(p, t) && At(log, t.from, p) ==> Consumed(log, ms, p, t)
  }

  lemma {:induction false} ConsumingFeed(kind: (nat, Turn) -> bool, log: seq<Entry>, ms: seq<Message>, p: nat,
                                         ts: seq<Turn>)
    requires Consuming(kind, log, ms) && IsFeed(kind, p, ts)
    requires ts != [] ==> At(log, ts[0].from, p)
    ensures ConsumedInOrder(log, ms, p, ts)
    decreases |ts|
  {
    if ts != [] {
      assert Consumed(log, ms, p, ts[0]);
      ConsumingFeed(kind, log, ms, p + ts[0].count, ts[1..]);
    }
  }

  /**
   * In every feed, with timeouts, errors and garbage in between, each `Update` consumes the log
   * entries right behind the previous one: no entry is lost or repeated.
   */
  lemma {:induction false} FeedIsContiguous(read: string -> Raw, log: seq<Entry>, p: nat, ts: seq<Turn>)
    requires HasIds(log) && IsFeed(Updates(read, log), p, ts)
    requires ts != [] ==> At(log, ts[0].from, p)
    ensures ConsumedInOrder(log, Messages(read, log), p, ts)
  {
    var ms := Messages(read, log);
    forall q: nat, t: Turn | Updates(read, log)(q, t) && At(log, t.from, q) ensures Consumed(log, ms, q, t) {
      UpdateAdvances(read, log, ms, q, t);
    }
    ConsumingFeed(Updates(read, log), log, ms, p, ts);
  }

  function Total(ts: seq<Turn>): nat {
    if ts == [] then 0 else ts[0].count + Total(ts[1..])
  }

  /** Everything a feed delivers, batch by batch. */
  function Batches(ts: seq<Turn>): seq<Message> {
    if ts == [] then [] else ts[0].batch + Batches(ts[1..])
  }

  /** Applying one update after the other. */
  function ApplyEach(c: CacheState, ms: seq<Message>): CacheState
    decreases |ms|
  {
    if ms == [] then c else ApplyEach(CacheSpec.SetIfExist(c, ms[0]), ms[1..])
  }

  lemma {:induction false} ApplyEachIsMerge(c: CacheState, ms: seq<Message>)
    ensures ApplyEach(c, ms) == CacheSpec.SetIfExist(c, Merge(ms))
    decreases |ms|
  {
    if ms == [] {
      SetIfExistNothing(c);
    } else {
      MergeCons(ms);
      ApplyEachIsMerge(CacheSpec.SetIfExist(c, ms[0]), ms[1..]);
      SetIfExistMerge(c, ms[0], Merge(ms[1..]));
    }
  }

  lemma {:induction false} SetIfExistNothing(c: CacheState)
    ensures CacheSpec.SetIfExist(c, map[]) == c
  {
    assert Restrict(map[], c.data.Keys + c.pending.Keys) == map[];
    AssignNothing(c);
  }

  lemma {:induction false} AssignNothing(c: CacheState)
    ensures Assign(c, map[]) == c
  {
  }

  ghost predicate DeliversInOrder(ms: seq<Message>, p: nat, ts: seq<Turn>)
    decreases |ts|
  {
    ts == [] || (Delivers(ms, p, ts[0]) && DeliversInOrder(ms, p + ts[0].count, ts[1..]))
  }

  lemma {:induction false} ConsumedIsDelivered(log: seq<Entry>, ms: seq<Message>, p: nat, ts: seq<Turn>)
    requires ConsumedInOrder(log, ms, p, ts)
    ensures DeliversInOrder(ms, p, ts)
    decreases |ts|
  {
    if ts != [] {
      ConsumedIsDelivered(log, ms, p + ts[0].count, ts[1..]);
    }
  }

  lemma {:induction false} DeliveredLastWrite(ms: seq<Message>, p: nat, t: Turn, k: Key)
    requires Delivers(ms, p, t)
    ensures LastWrite(t.batch, k) == LastWrite(ms[p..p + t.count], k)
  {
    if t.batch == [] {
      assert ms[p..p] == [];
    } else {
      assert t.batch[..0] == [];
      MergeIsLastWrite(ms[p..p + t.count], k);
    }
  }

  lemma {:induction false} LastWriteJoined(ms: seq<Message>, p: nat, q: nat, r: nat, a: seq<Message>, b: seq<Message>,
                                           k: Key)
    requires p <= q <= r <= |ms|
    requires LastWrite(a, k) == LastWrite(ms[p..q], k) && LastWrite(b, k) == LastWrite(ms[q..r], k)
    ensures LastWrite(a + b, k) == LastWrite(ms[p..r], k)
  {
    LastWriteConcat(a, b, k);
    LastWriteSegments(ms, p, q, r, k);
  }

  lemma {:induction false} TurnLastWrite(ms: seq<Message>, p: nat, t: Turn, r: nat, bs: seq<Message>, k: Key)
    requires Delivers(ms, p, t) && p + t.count <= r <= |ms|
    requires LastWrite(bs, k) == LastWrite(ms[p + t.count..r], k)
    ensures LastWrite(t.batch + bs, k) == LastWrite(ms[p..r], k)
  {
    DeliveredLastWrite(ms, p, t, k);
    LastWriteJoined(ms, p, p + t.count, r, t.batch, bs, k);
  }

  /** For each key the feed delivers last what the consumed messages wrote last. */
  lemma {:induction false} FeedLastWrite(ms: seq<Message>, p: nat, ts: seq<Turn>, r: nat, bs: seq<Message>, k: Key)
    requires DeliversInOrder(ms, p, ts) && p + Total(ts) == r <= |ms| && bs == Batches(ts)
    ensures LastWrite(bs, k) == LastWrite(ms[p..r], k)
    decreases |ts|
  {
    if ts == [] {
      assert ms[p..r] == bs;
    } else {
      var rest := Batches(ts[1..]);
      FeedLastWrite(ms, p + ts[0].count, ts[1..], r, rest, k);
      TurnLastWrite(ms, p, ts[0], r, rest, k);
    }
  }

  lemma {:induction false} FeedMerges(ms: seq<Message>, p: nat, ts: seq<Turn>, r: nat, bs: seq<Message>)
    requires DeliversInOrder(ms, p, ts) && p + Total(ts) == r <= |ms| && bs == Batches(ts)
    ensures Merge(bs) == Merge(ms[p..r])
  {
    forall k ensures LastWrite(bs, k) == LastWrite(ms[p..r], k) {
      FeedLastWrite(ms, p, ts, r, bs, k);
    }
    SameLastWrites(bs, ms[p..r]);
  }

  lemma {:induction false} SameMergeSameCache(c: CacheState, a: seq<Message>, b: seq<Message>)
    requires Merge(a) == Merge(b)
    ensures ApplyEach(c, a) == ApplyEach(c, b)
  {
    ApplyEachIsMerge(c, a);
    ApplyEachIsMerge(c, b);
  }

  lemma {:induction false} ConsumedMerges(log: seq<Entry>, ms: seq<Message>, p: nat, ts: seq<Turn>, r: nat,
                                          bs: seq<Message>)
    requires ConsumedInOrder(log, ms, p, ts) && p + Total(ts) == r <= |ms| && bs == Batches(ts)
    ensures Merge(bs) == Merge(ms[p..r])
  {
    ConsumedIsDelivered(log, ms, p, ts);
    FeedMerges(ms, p, ts, r, bs);
  }

  /** The feed leaves the cache as if the consumed messages had been applied one by one. */
  lemma {:induction false} FeedIsMessageByMessage(log: seq<Entry>, ms: seq<Message>, p: nat, ts: seq<Turn>, r: nat,
                                                  bs: seq<Message>, c: CacheState)
    requires ConsumedInOrder(log, ms, p, ts) && p + Total(ts) == r <= |ms| && bs == Batches(ts)
    ensures ApplyEach(c, bs) == ApplyEach(c, ms[p..r])
  {
    ConsumedMerges(log, ms, p, ts, r, bs);
    SameMergeSameCache(c, bs, ms[p..r]);
  }

  lemma {:induction false} LastCursor(log: seq<Entry>, ms: seq<Message>, p: nat, ts: seq<Turn>)
    requires ConsumedInOrder(log, ms, p, ts) && p <= |log|
    ensures p + Total(ts) <= |log|
    ensures ts != [] ==> At(log, ts[|ts| - 1].to, p + Total(ts))
    decreases |ts|
  {
    if ts != [] {
      LastCursor(log, ms, p + ts[0].count, ts[1..]);
    }
  }

  lemma {:induction false} ConsumedIsGood(log: seq<Entry>, ms: seq<Message>, p: nat, ts: seq<Turn>)
    requires ConsumedInOrder(log, ms, p, ts) && p + Total(ts) <= |log|
    ensures GoodLog(log[p..p + Total(ts)])
    decreases |ts|
  {
    if ts != [] {
      var q := p + ts[0].count;
      ConsumedIsGood(log, ms, q, ts[1..]);
      GoodJoined(log, p, q, q + Total(ts[1..]));
    }
  }

  lemma {:induction false} FeedIsConsumed(read: string -> Raw, log: seq<Entry>, ms: seq<Message>, p: nat, ts: seq<Turn>)
    requires HasIds(log) && IsFeed(Updates(read, log), p, ts) && ms == Messages(read, log)
    requires ts != [] ==> At(log, ts[0].from, p)
    ensures |ms| == |log| && ConsumedInOrder(log, ms, p, ts)
  {
    MessagesPrefix(read, log, 0);
    FeedIsContiguous(read, log, p, ts);
  }

  lemma {:induction false} ConsumedEnds(log: seq<Entry>, ms: seq<Message>, p: nat, ts: seq<Turn>, q: nat)
    requires ConsumedInOrder(log, ms, p, ts) && p <= |log| && q == p + Total(ts)
    ensures q <= |log| && GoodLog(log[p..q])
    ensures ts != [] ==> At(log, ts[|ts| - 1].to, q)
  {
    LastCursor(log, ms, p, ts);
    ConsumedIsGood(log, ms, p, ts);
  }

  /**
   * Whatever the exchanges were, the cache ends as if the next messages of the log had been
   * applied one by one, each once and in order, and the cursor stands behind the last of them.
   * The feed never gets past an entry with a key that has not three parts.
   */
  lemma {:induction false} FeedFollowsLog(read: string -> Raw, log: seq<Entry>, ms: seq<Message>, p: nat, ts: seq<Turn>,
                                          q: nat, bs: seq<Message>, c: CacheState)
    requires HasIds(log) && IsFeed(Updates(read, log), p, ts) && p <= |log|
    requires ts != [] ==> At(log, ts[0].from, p)
    requires ms == Messages(read, log) && q == p + Total(ts) && bs == Batches(ts)
    ensures q <= |log| == |ms| && GoodLog(log[p..q])
    ensures ApplyEach(c, bs) == ApplyEach(c, ms[p..q])
    ensures ts != [] ==> At(log, ts[|ts| - 1].to, q)
  {
    FeedIsConsumed(read, log, ms, p, ts);
    ConsumedEnds(log, ms, p, ts, q);
    FeedIsMessageByMessage(log, ms, p, ts, q, bs, c);
  }

  lemma {:induction false} GoodEach(log: seq<Entry>, p: nat, q: nat)
    requires p <= q <= |log| && GoodLog(log[p..q])
    ensures forall j :: p <= j < q ==> GoodPairs(log[j].pairs)
  {
    forall j | p <= j < q ensures GoodPairs(log[j].pairs) {
      assert log[p..q][j - p] == log[j];
    }
  }

  lemma {:induction false} BadEntryUnconsumed(log: seq<Entry>, ms: seq<Message>, p: nat, ts: seq<Turn>, i: nat)
    requires ConsumedInOrder(log, ms, p, ts) && p <= i < |log| && !GoodPairs(log[i].pairs)
    ensures p + Total(ts) <= i
  {
    LastCursor(log, ms, p, ts);
    ConsumedIsGood(log, ms, p, ts);
    GoodEach(log, p, p + Total(ts));
  }

  /** One malformed entry stops the feed in front of it, however often it is read again. */
  lemma {:induction false} BadEntryBlocks(read: string -> Raw, log: seq<Entry>, p: nat, ts: seq<Turn>, i: nat)
    requires HasIds(log) && IsFeed(Updates(read, log), p, ts) && p <= |log|
    requires ts != [] ==> At(log, ts[0].from, p)
    requires p <= i < |log| && !GoodPairs(log[i].pairs)
    ensures p + Total(ts) <= i
  {
    FeedIsContiguous(read, log, p, ts);
    BadEntryUnconsumed(log, Messages(read, log), p, ts, i);
  }

  /** With distinct ids the cursor names one position, so the server knows where to go on. */
  lemma {:induction false} CursorNamesOnePosition(log: seq<Entry>, cursor: string, p: nat, q: nat)
    requires forall i, j :: 0 <= i < j < |log| ==> log[i].id != log[j].id
    requires At(log, cursor, p) && At(log, cursor, q)
    ensures p == q
  {
    var i, j := p - 1, q - 1;
    assert log[i].id == log[j].id;
  }
}
