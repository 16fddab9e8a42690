/** Field descriptions of a key request, and the keys that a description reads off a value. */
module Fields {
  import opened Values

  /** `Leaf` is the nil description: the key is requested, but not followed. */
  datatype Desc =
    | Leaf
    | Relation(collection: string, fields: map<string, Desc>)
    | RelationList(collection: string, fields: map<string, Desc>)
    | Generic(fields: map<string, Desc>)
    | GenericList(fields: map<string, Desc>)
    | Template(values: Desc)

  datatype Body = Body(ids: seq<int>, collection: string, fields: map<string, Desc>)

  /** The result of decoding a value: JSON of another type, or no JSON at all, is an error. */
  datatype Decoded<+T> = Value(value: T) | WrongType | NotJson

  predicate HasFields(d: Desc) {
    !d.Leaf? && !d.Template?
  }

  // ---- Keys ----

  function Digits(n: nat): string {
    if n < 10 then [('0' as int + n) as char] else Digits(n / 10) + Digits(n % 10)
  }

  function Itoa(n: int): string {
    if n < 0 then "-" + Digits(-n) else Digits(n)
  }

  function CollectionId(collection: string, id: int): string {
    collection + "/" + Itoa(id)
  }

  function GenericKey(cid: string, field: string): Key {
    cid + "/" + field
  }

  /** `strings.Replace(key, "$", word, 1)`. */
  function ReplaceFirst(key: string, word: string): string {
    if key == [] then []
    else if key[0] == '$' then word + key[1..]
    else [key[0]] + ReplaceFirst(key[1..], word)
  }

  /** The first dollar of the key gives way to the word; a key without one stays as it is. */
  lemma {:induction false} ReplacesFirst(a: string, b: string, word: string)
    requires '$' !in a
    ensures ReplaceFirst(a + "$" + b, word) == a + word + b && ReplaceFirst(a, word) == a
  {
    if a == [] {
      assert a + "$" + b == "$" + b && a + word + b == word + b;
    } else {
      ReplacesFirst(a[1..], b, word);
      assert (a + "$" + b)[1..] == a[1..] + "$" + b;
      assert [a[0]] + (a[1..] + word + b) == a + word + b;
    }
  }

  // ---- Decoding values, as `json.Unmarshal` does: null leaves the zero value ----

  const MIN_INT := -0x8000_0000_0000_0000
  const MAX_INT := 0x7fff_ffff_ffff_ffff

  function AsInt(j: Json): Decoded<int> {
    match j
    case Null => Value(0)
    case Int(n) => if MIN_INT <= n <= MAX_INT then Value(n) else WrongType
    case _ => WrongType
  }

  function AsStr(j: Json): Decoded<string> {
    match j
    case Null => Value("")
    case Str(s) => Value(s)
    case _ => WrongType
  }

  function ListInts(items: seq<Json>): Decoded<seq<int>> {
    if items == [] then Value([])
    else
      match (ListInts(items[..|items| - 1]), AsInt(items[|items| - 1]))
      case (Value(ids), Value(id)) => Value(ids + [id])
      case _ => WrongType
  }

  /** The collection ids of a list of object ids. */
  function ListIds(collection: string, items: seq<Json>): Decoded<seq<string>> {
    if items == [] then Value([])
    else
      match (ListIds(collection, items[..|items| - 1]), AsInt(items[|items| - 1]))
      case (Value(cids), Value(id)) => Value(cids + [CollectionId(collection, id)])
      case _ => WrongType
  }

  function ListWords(items: seq<Json>): Decoded<seq<string>> {
    if items == [] then Value([])
    else
      match (ListWords(items[..|items| - 1]), AsStr(items[|items| - 1]))
      case (Value(words), Value(w)) => Value(words + [w])
      case _ => WrongType
  }

  /**
   * What a description reads off a value: the collection ids it leads to, or for a template
   * the words to put into its key.
   */
  function ReadValue(d: Desc, v: Raw): Decoded<seq<string>> {
    if !v.Doc? then NotJson
    else
      match d
      case Leaf => Value([])
      case Relation(collection, _) =>
        (match AsInt(v.json)
         case Value(id) => Value([CollectionId(collection, id)])
         case _ => WrongType)
      case RelationList(collection, _) =>
        (match v.json
         case Null => Value([])
         case Arr(items) => ListIds(collection, items)
         case _ => WrongType)
      case Generic(_) =>
        (match AsStr(v.json)
         case Value(cid) => Value([cid])
         case _ => WrongType)
      case _ =>
        (match v.json
         case Null => Value([])
         case Arr(items) => ListWords(items)
         case _ => WrongType)
  }

  // ---- The same without the decoding functions ----

  /** A JSON value that Go takes for this 64-bit integer; null leaves zero. */
  ghost predicate IntOf(j: Json, n: int) {
    (j == Null && n == 0) || (j == Int(n) && -0x8000_0000_0000_0000 <= n < 0x8000_0000_0000_0000)
  }

  /** A JSON value that Go takes for this string; null leaves the empty one. */
  ghost predicate StrOf(j: Json, w: string) {
    (j == Null && w == "") || j == Str(w)
  }

  ghost predicate IsInt(j: Json) {
    exists n :: IntOf(j, n)
  }

  ghost predicate IsStr(j: Json) {
    exists w :: StrOf(j, w)
  }

  lemma {:induction false} AsIntIff(j: Json, n: int)
    ensures AsInt(j) == Value(n) <==> IntOf(j, n)
    ensures AsInt(j).Value? <==> IsInt(j)
  {
    if AsInt(j).Value? {
      assert IntOf(j, AsInt(j).value);
    }
  }

  lemma {:induction false} AsStrIff(j: Json, w: string)
    ensures AsStr(j) == Value(w) <==> StrOf(j, w)
    ensures AsStr(j).Value? <==> IsStr(j)
  {
    if AsStr(j).Value? {
      assert StrOf(j, AsStr(j).value);
    }
  }

  /** The value has the form that a description of this type reads. */
  ghost predicate Fits(d: Desc, j: Json) {
    match d
    case Leaf => true
    case Relation(_, _) => IsInt(j)
    case RelationList(_, _) => j.Null? || (j.Arr? && forall x :: x in j.items ==> IsInt(x))
    case Generic(_) => IsStr(j)
    case _ => j.Null? || (j.Arr? && forall x :: x in j.items ==> IsStr(x))
  }

  /** The object of this collection with the id that the JSON value holds. */
  ghost predicate ObjectOf(collection: string, j: Json, w: string) {
    exists n :: IntOf(j, n) && w == collection + "/" + Itoa(n)
  }

  /** The value names the object `w`, or for a template the word `w`. */
  ghost predicate Names(d: Desc, j: Json, w: string) {
    match d
    case Leaf => false
    case Relation(collection, _) => ObjectOf(collection, j, w)
    case RelationList(collection, _) => j.Arr? && exists x :: x in j.items && ObjectOf(collection, x, w)
    case Generic(_) => StrOf(j, w)
    case _ => j.Arr? && exists x :: x in j.items && StrOf(x, w)
  }

  lemma {:induction false} ObjectOfIff(collection: string, j: Json, w: string)
    ensures ObjectOf(collection, j, w)
        <==> AsInt(j).Value? && CollectionId(collection, AsInt(j).value) == w
  {
    if AsInt(j).Value? {
      AsIntIff(j, AsInt(j).value);
    }
    if ObjectOf(collection, j, w) {
      var n :| IntOf(j, n) && w == collection + "/" + Itoa(n);
      AsIntIff(j, n);
    }
  }

  lemma {:induction false} ReadsIds(collection: string, fields: map<string, Desc>, j: Json, w: string)
    requires j.Arr?
    ensures ListIds(collection, j.items).Value? <==> Fits(RelationList(collection, fields), j)
    ensures ListIds(collection, j.items).Value? ==>
      (w in ListIds(collection, j.items).value <==> Names(RelationList(collection, fields), j, w))
  {
    ListIdsAre(collection, j.items, w);
    forall x | x in j.items
      ensures AsInt(x).Value? <==> IsInt(x)
      ensures ObjectOf(collection, x, w) <==> AsInt(x).Value? && CollectionId(collection, AsInt(x).value) == w
    {
      AsIntIff(x, 0);
      ObjectOfIff(collection, x, w);
    }
  }

  lemma {:induction false} ReadsWords(d: Desc, j: Json, w: string)
    requires j.Arr? && (d.GenericList? || d.Template?)
    ensures ListWords(j.items).Value? <==> Fits(d, j)
    ensures ListWords(j.items).Value? ==> (w in ListWords(j.items).value <==> Names(d, j, w))
  {
    ListWordsAre(j.items, w);
    forall x ensures AsStr(x).Value? <==> IsStr(x) ensures AsStr(x) == Value(w) <==> StrOf(x, w) {
      AsStrIff(x, w);
    }
  }

  /** A value is read if it fits the description, and what is read is exactly what it names. */
  lemma {:induction false} ReadValueIff(d: Desc, v: Raw, w: string)
    ensures ReadValue(d, v).NotJson? <==> !v.Doc?
    ensures ReadValue(d, v).Value? <==> v.Doc? && Fits(d, v.json)
    ensures ReadValue(d, v).Value? ==> (w in ReadValue(d, v).value <==> Names(d, v.json, w))
  {
    if v.Doc? {
      var j := v.json;
      match d
      case Leaf =>
      case Relation(collection, _) =>
        AsIntIff(j, 0);
        ObjectOfIff(collection, j, w);
      case RelationList(collection, fields) =>
        if j.Arr? {
          ReadsIds(collection, fields, j, w);
        }
      case Generic(_) => AsStrIff(j, w);
      case _ =>
        if j.Arr? {
          ReadsWords(d, j, w);
        }
    }
  }

  lemma {:induction false} ListIdsAre(collection: string, items: seq<Json>, w: string)
    ensures ListIds(collection, items).Value? <==> forall j :: j in items ==> AsInt(j).Value?
    ensures ListIds(collection, items).Value? ==>
      (w in ListIds(collection, items).value <==>
        exists j :: j in items && AsInt(j).Value? && CollectionId(collection, AsInt(j).value) == w)
  {
    if items != [] {
      var n := |items| - 1;
      ListIdsAre(collection, items[..n], w);
      assert items == items[..n] + [items[n]];
    }
  }

  lemma {:induction false} ListWordsAre(items: seq<Json>, w: string)
    ensures ListWords(items).Value? <==> forall j :: j in items ==> AsStr(j).Value?
    ensures ListWords(items).Value? ==>
      (w in ListWords(items).value <==> exists j :: j in items && AsStr(j) == Value(w))
  {
    if items != [] {
      var n := |items| - 1;
      ListWordsAre(items[..n], w);
      assert items == items[..n] + [items[n]];
    }
  }

  lemma {:induction false} ListIdsUpToOrder(collection: string, xs: seq<Json>, ys: seq<Json>, w: string)
    requires forall j :: j in xs <==> j in ys
    ensures ListIds(collection, xs).Value? <==> ListIds(collection, ys).Value?
    ensures ListIds(collection, xs).Value? ==>
      (w in ListIds(collection, xs).value <==> w in ListIds(collection, ys).value)
  {
    ListIdsAre(collection, xs, w);
    ListIdsAre(collection, ys, w);
  }

  lemma {:induction false} ListWordsUpToOrder(xs: seq<Json>, ys: seq<Json>, w: string)
    requires forall j :: j in xs <==> j in ys
    ensures ListWords(xs).Value? <==> ListWords(ys).Value?
    ensures ListWords(xs).Value? ==> (w in ListWords(xs).value <==> w in ListWords(ys).value)
  {
    ListWordsAre(xs, w);
    ListWordsAre(ys, w);
  }

  lemma {:induction false} SameElements(xs: seq<Json>, ys: seq<Json>)
    requires multiset(xs) == multiset(ys)
    ensures forall j :: j in xs <==> j in ys
  {
    forall j ensures j in xs <==> j in ys {
      assert j in xs <==> j in multiset(xs);
      assert j in ys <==> j in multiset(ys);
    }
  }

  /** What is read off a list does not depend on its order. */
  lemma {:induction false} ReadUpToOrder(d: Desc, a: Raw, b: Raw, w: string)
    requires SameUpToOrder(a, b)
    ensures ReadValue(d, a).Value? <==> ReadValue(d, b).Value?
    ensures ReadValue(d, a).Value? ==> (w in ReadValue(d, a).value <==> w in ReadValue(d, b).value)
  {
    if a != b {
      var xs, ys := a.json.items, b.json.items;
      SameElements(xs, ys);
      if d.RelationList? {
        ListIdsUpToOrder(d.collection, xs, ys, w);
      } else {
        ListWordsUpToOrder(xs, ys, w);
      }
    }
  }

  // ---- What a description writes ----

  /** Every write of a description for the words it read, also one that is overwritten later. */
  ghost predicate Writes(d: Desc, key: Key, words: seq<string>, k: Key, child: Desc) {
    if d.Leaf? then false
    else if d.Template? then child == d.values && exists w :: w in words && k == ReplaceFirst(key, w)
    else exists w, f :: w in words && f in d.fields && k == GenericKey(w, f) && child == d.fields[f]
  }

  ghost predicate Written(d: Desc, key: Key, words: seq<string>, k: Key) {
    exists child :: Writes(d, key, words, k, child)
  }

  /**
   * `l'` is the worklist `l` after these writes: a written key holds one of the written
   * descriptions, every other key is as before.
   */
  ghost predicate Puts(l: map<Key, Desc>, l': map<Key, Desc>, d: Desc, key: Key, words: seq<string>) {
    && (forall k, child :: Writes(d, key, words, k, child) ==> k in l' && Writes(d, key, words, k, l'[k]))
    && (forall k :: k in l ==> k in l')
    && (forall k :: k in l' && !Written(d, key, words, k) ==> k in l && l'[k] == l[k])
  }

  lemma {:induction false} WritesMore(d: Desc, key: Key, words: seq<string>, more: seq<string>, k: Key, child: Desc)
    ensures Writes(d, key, words + more, k, child)
        <==> Writes(d, key, words, k, child) || Writes(d, key, more, k, child)
  {
    assert forall w :: w in words + more <==> w in words || w in more;
  }

  lemma {:induction false} NothingPut(l: map<Key, Desc>, d: Desc, key: Key)
    ensures Puts(l, l, d, key, [])
  {
  }

  /** Writes for some words, then for more words. */
  lemma {:induction false} PutsMore(l: map<Key, Desc>, l1: map<Key, Desc>, l2: map<Key, Desc>, d: Desc, key: Key,
                 words: seq<string>, more: seq<string>)
    requires Puts(l, l1, d, key, words) && Puts(l1, l2, d, key, more)
    ensures Puts(l, l2, d, key, words + more)
  {
    forall k, child ensures Writes(d, key, words + more, k, child)
                        <==> Writes(d, key, words, k, child) || Writes(d, key, more, k, child) {
      WritesMore(d, key, words, more, k, child);
    }
    forall k, child | Writes(d, key, words + more, k, child)
      ensures k in l2 && Writes(d, key, words + more, k, l2[k])
    {
      if !Written(d, key, more, k) {
        assert l2[k] == l1[k];
      }
    }
    forall k | k in l2 && !Written(d, key, words + more, k) ensures k in l && l2[k] == l[k] {
      assert !Written(d, key, words, k) && !Written(d, key, more, k);
    }
  }

  // ---- Depth ----

  /** Some chain of descriptions below `d`, with `d` itself, has `n` that are to be followed. */
  ghost predicate Nests(d: Desc, n: nat)
    decreases d
  {
    n == 0 ||
    match d
    case Leaf => false
    case Template(v) => Nests(v, n - 1)
    case _ => n == 1 || exists f :: f in d.fields && Nests(d.fields[f], n - 1)
  }

  function Max(a: nat, b: nat): (m: nat)
    ensures a <= m && b <= m
  {
    if a < b then b else a
  }

  /** The number of values to read below a key with this description. */
  ghost function Depth(d: Desc): nat
    decreases d
  {
    match d
    case Leaf => 0
    case Template(v) => 1 + Depth(v)
    case _ => 1 + FieldsDepth(d, d.fields.Keys)
  }

  ghost function FieldsDepth(d: Desc, names: set<string>): nat
    requires HasFields(d) && names <= d.fields.Keys
    decreases d, names
  {
    if names == {} then 0
    else
      var f :| f in names;
      Max(Depth(d.fields[f]), FieldsDepth(d, names - {f}))
  }

  lemma {:induction false} FieldBelow(d: Desc, names: set<string>, f: string)
    requires HasFields(d) && names <= d.fields.Keys && f in names
    ensures Depth(d.fields[f]) <= FieldsDepth(d, names)
    decreases names
  {
    var g :| g in names && FieldsDepth(d, names) == Max(Depth(d.fields[g]), FieldsDepth(d, names - {g}));
    var here, rest := Depth(d.fields[g]), FieldsDepth(d, names - {g});
    assert FieldsDepth(d, names) == Max(here, rest);
    if f != g {
      FieldBelow(d, names - {g}, f);
    }
  }

  lemma {:induction false} DeepestField(d: Desc, names: set<string>) returns (f: string)
    requires HasFields(d) && names <= d.fields.Keys && names != {}
    ensures f in names && Depth(d.fields[f]) == FieldsDepth(d, names)
    decreases names
  {
    var g :| g in names && FieldsDepth(d, names) == Max(Depth(d.fields[g]), FieldsDepth(d, names - {g}));
    var here, rest := Depth(d.fields[g]), FieldsDepth(d, names - {g});
    assert Max(here, rest) == here || Max(here, rest) == rest;
    if Max(here, rest) == here || names == {g} {
      f := g;
      assert names == {g} ==> rest == 0;
    } else {
      f := DeepestField(d, names - {g});
    }
  }

  /** The depth is the length of the longest chain of descriptions to follow. */
  lemma {:induction false} DepthIff(d: Desc, n: nat)
    ensures Nests(d, n) <==> n <= Depth(d)
    decreases d
  {
    if n > 0 {
      match d
      case Leaf =>
      case Template(v) => DepthIff(v, n - 1);
      case _ =>
        forall f | f in d.fields ensures Nests(d.fields[f], n - 1) <==> n - 1 <= Depth(d.fields[f]) {
          DepthIff(d.fields[f], n - 1);
        }
        forall f | f in d.fields ensures Depth(d.fields[f]) <= FieldsDepth(d, d.fields.Keys) {
          FieldBelow(d, d.fields.Keys, f);
        }
        if d.fields != map[] {
          var f := DeepestField(d, d.fields.Keys);
        }
    }
  }

  /** Following a description makes it less deep: the measure that ends every build. */
  lemma {:induction false} WritesAreLessDeep(d: Desc, key: Key, words: seq<string>, k: Key, child: Desc)
    requires Writes(d, key, words, k, child)
    ensures Depth(child) < Depth(d) && child < d
  {
    if HasFields(d) {
      var w, f :| w in words && f in d.fields && k == GenericKey(w, f) && child == d.fields[f];
      FieldBelow(d, d.fields.Keys, f);
    }
  }
}
