/** The restricter: it hides values, and reduces relation lists to what the user may see. */
module Restricting {
  import opened Values
  import opened Fields
  import GetMany

  // ---- Decimal numbers can be read back ----

  function DigitValue(c: char): int {
    c as int - '0' as int
  }

  /** The number that a string of digits stands for. */
  function Number(s: string): int {
    if s == [] then 0 else 10 * Number(s[..|s| - 1]) + DigitValue(s[|s| - 1])
  }

  lemma {:induction false} DigitsRead(n: nat)
    ensures Digits(n) != [] && Digits(n)[0] != '-' && Number(Digits(n)) == n
    ensures forall i :: 0 <= i < |Digits(n)| ==> '0' <= Digits(n)[i] <= '9'
    ensures n > 0 ==> Digits(n)[0] != '0'
  {
    if n >= 10 {
      DigitsRead(n / 10);
      var s := Digits(n);
      assert Digits(n % 10) == [('0' as int + n % 10) as char];
      assert s[..|s| - 1] == Digits(n / 10);
    }
  }

  /** The decimal number: digits without leading zeros, which read as the number, after a minus if it is negative. */
  lemma {:induction false} ItoaIsDecimal(n: int)
    ensures Itoa(0) == "0"
    ensures n > 0 ==>
      && |Itoa(n)| > 0 && '1' <= Itoa(n)[0] && Number(Itoa(n)) == n
      && forall i :: 0 <= i < |Itoa(n)| ==> '0' <= Itoa(n)[i] <= '9'
    ensures n > 0 ==> Itoa(-n) == "-" + Itoa(n)
  {
    if n > 0 {
      DigitsRead(n);
    }
  }

  lemma {:induction false} ItoaInjective(a: int, b: int)
    requires Itoa(a) == Itoa(b)
    ensures a == b
  {
    DigitsRead(if a < 0 then -a else a);
    DigitsRead(if b < 0 then -b else b);
    assert a < 0 ==> Itoa(a)[0] == '-' && Itoa(a)[1..] == Digits(-a);
    assert b < 0 ==> Itoa(b)[0] == '-' && Itoa(b)[1..] == Digits(-b);
  }

  lemma {:induction false} IdsDistinct(model: string, a: int, b: int)
    requires CollectionId(model, a) == CollectionId(model, b)
    ensures a == b
  {
    assert CollectionId(model, a)[|model| + 1..] == Itoa(a);
    assert CollectionId(model, b)[|model| + 1..] == Itoa(b);
    ItoaInjective(a, b);
  }

  // ---- Permissions and checkers ----

  /** The answers of the permission service for one user; none stands for an error. */
  datatype Permission = Permission(
    checkFields: seq<Key> -> Option<map<Key, bool>>,
    checkIds: seq<string> -> Option<map<string, bool>>)

  /** Go's map read: what the answer leaves out is not granted. */
  predicate Grants(answer: map<string, bool>, k: string) {
    k in answer && answer[k]
  }

  /** The answer grants nothing that was not asked for. */
  ghost predicate OnlyAsked(answer: map<string, bool>, asked: seq<string>) {
    forall k :: Grants(answer, k) ==> k in asked
  }

  /** The answers do not change from call to call, and those about ids grant only what was asked. */
  ghost predicate Consistent(p: Permission, mayField: Key -> bool, mayId: string -> bool) {
    && (forall keys, k :: p.checkFields(keys).Some? && k in keys ==>
          Grants(p.checkFields(keys).value, k) == mayField(k))
    && (forall ids :: p.checkIds(ids).Some? ==>
          && OnlyAsked(p.checkIds(ids).value, ids)
          && forall k :: k in ids ==> Grants(p.checkIds(ids).value, k) == mayId(k))
  }

  datatype Checker = RelationList(model: string) | GenericRelationList

  /** `fqfieldToModelField`: the first and the third part of a key. */
  function ModelField(k: Key): string
    requires GetMany.HasParts(k)
  {
    var (collection, _, field) := GetMany.Split(k);
    collection + "/" + field[..GetMany.FirstSlash(field)]
  }

  /** All fields of a model have one checker, whatever the id of the object. */
  lemma {:induction false} ModelFieldOf(collection: string, id: string, field: string)
    requires GetMany.SlashFree(collection) && GetMany.SlashFree(id) && GetMany.SlashFree(field)
    ensures GetMany.HasParts(GetMany.Join(collection, id, field))
    ensures ModelField(GetMany.Join(collection, id, field)) == collection + "/" + field
  {
    GetMany.SplitJoin(collection, id, field);
  }

  /** The checkers by model field, and the checker of the first structured field that matches. */
  datatype Checks = Checks(byField: map<string, Checker>, structured: string -> Option<Checker>) {

    function For(k: Key): Option<Checker> {
      if !GetMany.HasParts(k) then None
      else if ModelField(k) in byField then Some(byField[ModelField(k)])
      else structured(ModelField(k))
    }
  }

  /** The key belongs to this field of this collection, whatever its id and what comes after the field. */
  ghost predicate BelongsTo(k: Key, collection: string, field: string) {
    exists id, rest :: IsKeyOf(k, collection, id, field, rest)
  }

  ghost predicate IsKeyOf(k: Key, collection: string, id: string, field: string, rest: string) {
    && '/' !in collection && '/' !in id && '/' !in field && (rest == "" || rest[0] == '/')
    && k == collection + "/" + id + "/" + field + rest
  }

  /** The checker of a model field: the one that is registered for it, or else a structured one. */
  ghost predicate HasChecker(checks: Checks, collection: string, field: string, checker: Option<Checker>) {
    var name := collection + "/" + field;
    checker == if name in checks.byField then Some(checks.byField[name]) else checks.structured(name)
  }

  lemma {:induction false} FirstSlashOf(a: string, rest: string)
    requires '/' !in a && (rest == "" || rest[0] == '/')
    ensures GetMany.FirstSlash(a + rest) == |a|
  {
    if rest == "" {
      assert a + rest == a;
      var n := GetMany.FirstSlash(a);
    } else {
      GetMany.FirstSlashAt(a, rest[1..]);
      assert a + "/" + rest[1..] == a + rest;
    }
  }

  /** The checker of a key is the one of its collection and field. */
  lemma {:induction false} CheckerIs(checks: Checks, k: Key, collection: string, id: string, field: string,
                                     rest: string)
    requires IsKeyOf(k, collection, id, field, rest)
    ensures GetMany.HasParts(k) && HasChecker(checks, collection, field, checks.For(k))
  {
    GetMany.SplitJoin(collection, id, field + rest);
    JoinRest(collection, id, field, rest);
    FirstSlashOf(field, rest);
    assert (field + rest)[..|field|] == field;
  }

  lemma {:induction false} CutField(s: string) returns (field: string, rest: string)
    ensures '/' !in field && (rest == "" || rest[0] == '/') && s == field + rest
  {
    var n := GetMany.FirstSlash(s);
    field, rest := s[..n], s[n..];
  }

  lemma {:induction false} JoinRest(collection: string, id: string, field: string, rest: string)
    ensures GetMany.Join(collection, id, field + rest) == collection + "/" + id + "/" + field + rest
  {
  }

  /** Every key with three parts belongs to one field of one collection. */
  lemma {:induction false} KeyBelongs(k: Key) returns (collection: string, id: string, field: string, rest: string)
    requires GetMany.HasParts(k)
    ensures IsKeyOf(k, collection, id, field, rest)
  {
    GetMany.JoinSplit(k);
    collection, id := GetMany.Split(k).0, GetMany.Split(k).1;
    field, rest := CutField(GetMany.Split(k).2);
    JoinRest(collection, id, field, rest);
  }

  /** The checker of a key, said without looking it up. */
  lemma {:induction false} CheckerIff(checks: Checks, k: Key, checker: Checker)
    ensures checks.For(k) == Some(checker)
        <==> exists c, f :: BelongsTo(k, c, f) && HasChecker(checks, c, f, Some(checker))
  {
    if checks.For(k) == Some(checker) {
      var c, id, f, rest := KeyBelongs(k);
      CheckerIs(checks, k, c, id, f, rest);
      assert BelongsTo(k, c, f);
    }
    if exists c, f :: BelongsTo(k, c, f) && HasChecker(checks, c, f, Some(checker)) {
      var c, f :| BelongsTo(k, c, f) && HasChecker(checks, c, f, Some(checker));
      var id, rest :| IsKeyOf(k, c, id, f, rest);
      CheckerIs(checks, k, c, id, f, rest);
    }
  }

  /** The ids of a relation list value. */
  function DecodeIds(v: Raw): Decoded<seq<int>> {
    if !v.Doc? then NotJson
    else match v.json
         case Null => Value([])
         case Arr(items) => ListInts(items)
         case _ => WrongType
  }

  function DecodeFqids(v: Raw): Decoded<seq<string>> {
    if !v.Doc? then NotJson
    else match v.json
         case Null => Value([])
         case Arr(items) => ListWords(items)
         case _ => WrongType
  }

  function EncodeIds(ids: seq<int>): Raw {
    Doc(Arr(seq(|ids|, i requires 0 <= i < |ids| => Int(ids[i]))))
  }

  function EncodeFqids(fqids: seq<string>): Raw {
    Doc(Arr(seq(|fqids|, i requires 0 <= i < |fqids| => Str(fqids[i]))))
  }

  lemma {:induction false} IdsRoundTrip(ids: seq<int>)
    requires forall id :: id in ids ==> MIN_INT <= id <= MAX_INT
    ensures DecodeIds(EncodeIds(ids)) == Value(ids)
  {
    if ids != [] {
      var n := |ids| - 1;
      assert ids == ids[..n] + [ids[n]] && ids[n] in ids;
      forall id | id in ids[..n] ensures MIN_INT <= id <= MAX_INT {
        assert id in ids;
      }
      IdsRoundTrip(ids[..n]);
      var items := EncodeIds(ids).json.items;
      assert items[..n] == EncodeIds(ids[..n]).json.items;
    }
  }

  lemma {:induction false} FqidsRoundTrip(fqids: seq<string>)
    ensures DecodeFqids(EncodeFqids(fqids)) == Value(fqids)
  {
    if fqids != [] {
      var n := |fqids| - 1;
      FqidsRoundTrip(fqids[..n]);
      var items := EncodeFqids(fqids).json.items;
      assert items[..n] == EncodeFqids(fqids[..n]).json.items;
      assert fqids == fqids[..n] + [fqids[n]];
    }
  }

  lemma {:induction false} DecodedIdsInRange(items: seq<Json>, id: int)
    requires ListInts(items).Value? && id in ListInts(items).value
    ensures MIN_INT <= id <= MAX_INT
  {
    if items != [] {
      if AsInt(items[|items| - 1]) != Value(id) {
        DecodedIdsInRange(items[..|items| - 1], id);
      }
    }
  }

  // ---- What a checker may return ----

  /** Exactly the allowed ids of the list, in some order, each once. */
  ghost predicate AllowedIds(ids: seq<int>, model: string, mayId: string -> bool, out: seq<int>) {
    NoDuplicates(out) && forall id :: id in out <==> id in ids && mayId(CollectionId(model, id))
  }

  ghost predicate AllowedFqids(fqids: seq<string>, mayId: string -> bool, out: seq<string>) {
    NoDuplicates(out) && forall f :: f in out <==> f in fqids && mayId(f)
  }

  /** The ids as the permission service knows them. */
  function FqidsOf(model: string, ids: seq<int>): seq<string> {
    seq(|ids|, i requires 0 <= i < |ids| => CollectionId(model, ids[i]))
  }

  /** The granted keys of an answer, each once, in the order in which a loop meets them. */
  ghost predicate IsListing(answer: map<string, bool>, keys: seq<string>) {
    NoDuplicates(keys) && forall k :: k in keys <==> Grants(answer, k)
  }

  /** The id that a key stands for; a key that was not asked for gives zero. */
  ghost predicate StandsFor(model: string, ids: seq<int>, key: string, id: int) {
    if key in FqidsOf(model, ids) then id in ids && CollectionId(model, id) == key else id == 0
  }

  /** What `relationList.Check` makes of an answer. */
  ghost predicate SelectedIds(model: string, ids: seq<int>, answer: map<string, bool>, out: seq<int>) {
    exists keys :: IsListing(answer, keys) && AllStandFor(model, ids, keys, out)
  }

  ghost predicate AllStandFor(model: string, ids: seq<int>, keys: seq<string>, out: seq<int>) {
    |out| == |keys| && forall i :: 0 <= i < |keys| ==> StandsFor(model, ids, keys[i], out[i])
  }

  /** `relationList.Check`. */
  method CheckRelationList(p: Permission, model: string, v: Raw) returns (r: Option<Raw>)
    ensures r.None? <==> !DecodeIds(v).Value? || p.checkIds(FqidsOf(model, DecodeIds(v).value)).None?
    ensures r.Some? ==>
      var ids := DecodeIds(v).value;
      exists out :: SelectedIds(model, ids, p.checkIds(FqidsOf(model, ids)).value, out) && r.value == EncodeIds(out)
  {
    var decoded := DecodeIds(v);
    if !decoded.Value? {
      return None;
    }
    var ids := decoded.value;
    var keys, keyToId := KeysOfIds(model, ids);
    var allowed := p.checkIds(keys);
    if allowed.None? {
      return None;
    }
    var out := SelectIds(model, ids, keyToId, allowed.value);
    return Some(EncodeIds(out));
  }

  /** Each key leads back to its id. */
  ghost predicate LeadsBack(model: string, ids: seq<int>, keyToId: map<string, int>) {
    forall k :: k in keyToId ==> keyToId[k] in ids && k == CollectionId(model, keyToId[k])
  }

  method KeysOfIds(model: string, ids: seq<int>) returns (keys: seq<string>, keyToId: map<string, int>)
    ensures keys == FqidsOf(model, ids)
    ensures keyToId.Keys == Elements(keys) && LeadsBack(model, ids, keyToId)
  {
    keys, keyToId := [], map[];
    for i := 0 to |ids|
      invariant keys == FqidsOf(model, ids)[..i]
      invariant keyToId.Keys == Elements(keys) && LeadsBack(model, ids, keyToId)
    {
      var key := CollectionId(model, ids[i]);
      ElementsAppend(keys, key);
      keys := keys + [key];
      keyToId := keyToId[key := ids[i]];
    }
  }

  /** The loop over the permission's answer, in the order of its map. */
  method SelectIds(model: string, ids: seq<int>, keyToId: map<string, int>, allowed: map<string, bool>)
    returns (out: seq<int>)
    requires keyToId.Keys == Elements(FqidsOf(model, ids)) && LeadsBack(model, ids, keyToId)
    ensures SelectedIds(model, ids, allowed, out)
  {
    out := [];
    ghost var keys: seq<string> := [];
    var todo := allowed.Keys;
    while todo != {}
      invariant todo <= allowed.Keys && NoDuplicates(keys)
      invariant forall k :: k in keys <==> Grants(allowed, k) && k !in todo
      invariant AllStandFor(model, ids, keys, out)
      decreases todo
    {
      var key :| key in todo;
      if allowed[key] {
        var id := if key in keyToId then keyToId[key] else 0;
        assert key in keyToId <==> key in FqidsOf(model, ids);
        keys, out := keys + [key], out + [id];
      }
      todo := todo - {key};
    }
    assert IsListing(allowed, keys);
  }

  /** The result lists exactly the granted ids, each once, if and only if only asked keys are granted. */
  lemma {:induction false} SelectedIffAsked(model: string, ids: seq<int>, answer: map<string, bool>, out: seq<int>)
    requires SelectedIds(model, ids, answer, out)
    ensures AllowedIds(ids, model, k => Grants(answer, k), out) <==> OnlyAsked(answer, FqidsOf(model, ids))
  {
    var keys :| IsListing(answer, keys) && AllStandFor(model, ids, keys, out);
    if OnlyAsked(answer, FqidsOf(model, ids)) {
      AskedIsAllowed(model, ids, answer, keys, out);
    } else {
      var k :| Grants(answer, k) && k !in FqidsOf(model, ids);
      var i :| 0 <= i < |keys| && keys[i] == k;
      ForeignIsNotAllowed(model, ids, answer, keys, out, i);
    }
  }

  lemma {:induction false} AskedIsAllowed(model: string, ids: seq<int>, answer: map<string, bool>, keys: seq<string>,
                                          out: seq<int>)
    requires IsListing(answer, keys) && AllStandFor(model, ids, keys, out) && OnlyAsked(answer, FqidsOf(model, ids))
    ensures AllowedIds(ids, model, k => Grants(answer, k), out)
  {
    forall i | 0 <= i < |out| ensures out[i] in ids && CollectionId(model, out[i]) == keys[i] {
      assert StandsFor(model, ids, keys[i], out[i]) && keys[i] in keys;
    }
    forall id | id in ids && Grants(answer, CollectionId(model, id)) ensures id in out {
      var i :| 0 <= i < |keys| && keys[i] == CollectionId(model, id);
      IdsDistinct(model, out[i], id);
    }
    forall id | id in out ensures id in ids && Grants(answer, CollectionId(model, id)) {
      var i :| 0 <= i < |out| && out[i] == id;
      assert keys[i] in keys;
    }
  }

  lemma {:induction false} AskedKey(model: string, ids: seq<int>, id: int)
    requires id in ids
    ensures CollectionId(model, id) in FqidsOf(model, ids)
  {
    var i :| 0 <= i < |ids| && ids[i] == id;
    assert FqidsOf(model, ids)[i] == CollectionId(model, id);
  }

  /** A key that was not asked for puts a zero into the list that should not be there, or is there twice. */
  lemma {:induction false} ZeroListed(model: string, ids: seq<int>, answer: map<string, bool>, keys: seq<string>,
                                      out: seq<int>) returns (j: nat)
    requires IsListing(answer, keys) && AllStandFor(model, ids, keys, out)
    requires 0 in ids && Grants(answer, CollectionId(model, 0))
    ensures j < |keys| == |out| && keys[j] in FqidsOf(model, ids) && out[j] == 0
  {
    AskedKey(model, ids, 0);
    j :| 0 <= j < |keys| && keys[j] == CollectionId(model, 0);
    assert StandsFor(model, ids, keys[j], out[j]);
    IdsDistinct(model, out[j], 0);
  }

  lemma {:induction false} ForeignIsNotAllowed(model: string, ids: seq<int>, answer: map<string, bool>,
                                               keys: seq<string>, out: seq<int>, i: nat)
    requires IsListing(answer, keys) && AllStandFor(model, ids, keys, out)
    requires i < |keys| && keys[i] !in FqidsOf(model, ids)
    ensures !AllowedIds(ids, model, k => Grants(answer, k), out)
  {
    assert StandsFor(model, ids, keys[i], out[i]) && out[i] == 0 && 0 in out;
    if 0 in ids && Grants(answer, CollectionId(model, 0)) {
      var j := ZeroListed(model, ids, answer, keys, out);
      assert i != j && out[i] == out[j];
    }
  }

  /** `genericRelationList.Check`. */
  method CheckGenericList(p: Permission, v: Raw) returns (r: Option<Raw>)
    ensures r.None? <==> !DecodeFqids(v).Value? || p.checkIds(DecodeFqids(v).value).None?
    ensures r.Some? ==>
      exists out :: IsListing(p.checkIds(DecodeFqids(v).value).value, out) && r.value == EncodeFqids(out)
  {
    var decoded := DecodeFqids(v);
    if !decoded.Value? {
      return None;
    }
    var allowed := p.checkIds(decoded.value);
    if allowed.None? {
      return None;
    }
    var out: seq<string> := [];
    var todo := allowed.value.Keys;
    while todo != {}
      invariant todo <= allowed.value.Keys && NoDuplicates(out)
      invariant forall k :: k in out <==> Grants(allowed.value, k) && k !in todo
      decreases todo
    {
      var fqid :| fqid in todo;
      if allowed.value[fqid] {
        out := out + [fqid];
      }
      todo := todo - {fqid};
    }
    assert IsListing(allowed.value, out);
    return Some(EncodeFqids(out));
  }

  /** The same condition for generic lists. */
  lemma {:induction false} ListingIffAsked(fqids: seq<string>, answer: map<string, bool>, out: seq<string>)
    requires IsListing(answer, out)
    ensures AllowedFqids(fqids, k => Grants(answer, k), out) <==> OnlyAsked(answer, fqids)
  {
    if AllowedFqids(fqids, k => Grants(answer, k), out) {
      forall k | Grants(answer, k) ensures k in fqids {
        assert k in out;
      }
    }
  }

  // ---- Restricting data ----

  /** What `Restrict` makes of `v` at `k`, given the answer about the fields. */
  ghost predicate RestrictsBy(p: Permission, checks: Checks, allowed: map<Key, bool>, k: Key, v: Raw, v': Raw) {
    if v == Nil || !Grants(allowed, k) then v' == Nil
    else
      match checks.For(k)
      case None => v' == v
      case Some(RelationList(model)) =>
        && DecodeIds(v).Value? && p.checkIds(FqidsOf(model, DecodeIds(v).value)).Some?
        && var ids := DecodeIds(v).value;
           exists out :: SelectedIds(model, ids, p.checkIds(FqidsOf(model, ids)).value, out) && v' == EncodeIds(out)
      case Some(GenericRelationList) =>
        && DecodeFqids(v).Value? && p.checkIds(DecodeFqids(v).value).Some?
        && exists out :: IsListing(p.checkIds(DecodeFqids(v).value).value, out) && v' == EncodeFqids(out)
  }

  /** The checker of a visible value cannot decode it, or gets no permission answer. */
  ghost predicate CheckFails(p: Permission, checks: Checks, allowed: map<Key, bool>, k: Key, v: Raw) {
    v != Nil && Grants(allowed, k) &&
    match checks.For(k)
    case None => false
    case Some(RelationList(model)) =>
      !DecodeIds(v).Value? || p.checkIds(FqidsOf(model, DecodeIds(v).value)).None?
    case Some(GenericRelationList) => !DecodeFqids(v).Value? || p.checkIds(DecodeFqids(v).value).None?
  }

  /** A key whose checker is looked up has three parts; a shorter one panics in Go. */
  ghost predicate KeysHaveParts(p: Permission, data: map<Key, Raw>) {
    forall keys, k :: Elements(keys) == data.Keys && NoDuplicates(keys) && p.checkFields(keys).Some? ==>
      Grants(p.checkFields(keys).value, k) && k in data && data[k] != Nil ==> GetMany.HasParts(k)
  }

  /** What `Restrict` returns if it asks for the keys in this order. */
  ghost predicate Answered(p: Permission, checks: Checks, data: map<Key, Raw>, keys: seq<Key>,
                           r: Option<map<Key, Raw>>) {
    && Elements(keys) == data.Keys && NoDuplicates(keys)
    && (r.None? <==>
        || p.checkFields(keys).None?
        || exists k :: k in data && CheckFails(p, checks, p.checkFields(keys).value, k, data[k]))
    && (r.Some? ==>
        && r.value.Keys == data.Keys
        && forall k :: k in data ==> RestrictsBy(p, checks, p.checkFields(keys).value, k, data[k], r.value[k]))
  }

  /** `Restrict`. It asks for the keys of the data, in some order. */
  method Restrict(p: Permission, checks: Checks, data: map<Key, Raw>) returns (r: Option<map<Key, Raw>>)
    requires KeysHaveParts(p, data)
    ensures exists keys :: Answered(p, checks, data, keys, r)
  {
    var keys := ListKeys(data.Keys);
    r := RestrictAll(p, checks, data, keys);
    assert Answered(p, checks, data, keys, r);
  }

  method RestrictAll(p: Permission, checks: Checks, data: map<Key, Raw>, keys: seq<Key>)
    returns (r: Option<map<Key, Raw>>)
    requires KeysHaveParts(p, data) && Elements(keys) == data.Keys && NoDuplicates(keys)
    ensures Answered(p, checks, data, keys, r)
  {
    var allowed := p.checkFields(keys);
    if allowed.None? {
      return None;
    }
    var out := data;
    var todo := data.Keys;
    while todo != {}
      invariant todo <= data.Keys == out.Keys
      invariant forall k :: k in data && k in todo ==> out[k] == data[k]
      invariant forall k :: k in data && k !in todo ==>
        RestrictsBy(p, checks, allowed.value, k, data[k], out[k]) && !CheckFails(p, checks, allowed.value, k, data[k])
      decreases todo
    {
      var k :| k in todo;
      var v := RestrictValue(p, checks, allowed.value, k, data[k]);
      if v.None? {
        return None;
      }
      out := out[k := v.value];
      todo := todo - {k};
    }
    return Some(out);
  }

  method ListKeys(ks: set<Key>) returns (keys: seq<Key>)
    ensures Elements(keys) == ks && NoDuplicates(keys)
  {
    keys := [];
    var todo := ks;
    while todo != {}
      invariant todo <= ks && Elements(keys) == ks - todo && NoDuplicates(keys)
      decreases todo
    {
      var k :| k in todo;
      ElementsAppend(keys, k);
      assert k !in Elements(keys);
      keys := keys + [k];
      todo := todo - {k};
    }
  }

  method RestrictValue(p: Permission, checks: Checks, allowed: map<Key, bool>, k: Key, v: Raw) returns (r: Option<Raw>)
    requires v != Nil && Grants(allowed, k) ==> GetMany.HasParts(k)
    ensures r.Some? ==> RestrictsBy(p, checks, allowed, k, v, r.value)
    ensures r.None? <==> CheckFails(p, checks, allowed, k, v)
  {
    if v == Nil {
      return Some(Nil);
    }
    if !Grants(allowed, k) {
      return Some(Nil);
    }
    var modelField := ModelField(k);
    var checker :=
      if modelField in checks.byField then Some(checks.byField[modelField]) else checks.structured(modelField);
    match checker
    case None => return Some(v);
    case Some(RelationList(model)) => r := CheckRelationList(p, model, v);
    case Some(GenericRelationList) => r := CheckGenericList(p, v);
  }

  // ---- Restricting by permissions that do not change ----

  /** A possible restricted value of `v` at `k` for a user with these permissions. */
  ghost predicate Restricts(checks: Checks, mayField: Key -> bool, mayId: string -> bool,
                            k: Key, v: Raw, v': Raw) {
    if v == Nil || !mayField(k) then v' == Nil
    else
      match checks.For(k)
      case None => v' == v
      case Some(RelationList(model)) =>
        DecodeIds(v).Value? && exists out :: AllowedIds(DecodeIds(v).value, model, mayId, out) && v' == EncodeIds(out)
      case Some(GenericRelationList) =>
        DecodeFqids(v).Value? && exists out :: AllowedFqids(DecodeFqids(v).value, mayId, out) && v' == EncodeFqids(out)
  }

  lemma {:induction false} SelectedIsPermitted(p: Permission, mayField: Key -> bool, mayId: string -> bool,
                                               model: string, ids: seq<int>, out: seq<int>)
    requires Consistent(p, mayField, mayId) && p.checkIds(FqidsOf(model, ids)).Some?
    requires SelectedIds(model, ids, p.checkIds(FqidsOf(model, ids)).value, out)
    ensures AllowedIds(ids, model, mayId, out)
  {
    var answer := p.checkIds(FqidsOf(model, ids)).value;
    SelectedIffAsked(model, ids, answer, out);
    forall id ensures id in out <==> id in ids && mayId(CollectionId(model, id)) {
      if id in ids {
        AskedKey(model, ids, id);
      }
    }
  }

  /** With consistent answers `Restrict` leaves what the user may see: exactly the allowed ids of a relation list. */
  lemma {:induction false} RestrictsAsPermitted(p: Permission, checks: Checks, mayField: Key -> bool,
                                                mayId: string -> bool,
                                                keys: seq<Key>, k: Key, v: Raw, v': Raw)
    requires Consistent(p, mayField, mayId) && p.checkFields(keys).Some? && k in keys
    requires RestrictsBy(p, checks, p.checkFields(keys).value, k, v, v')
    ensures Restricts(checks, mayField, mayId, k, v, v')
  {
    if v != Nil && mayField(k) {
      match checks.For(k)
      case None =>
      case Some(RelationList(model)) =>
        var ids := DecodeIds(v).value;
        var out :| SelectedIds(model, ids, p.checkIds(FqidsOf(model, ids)).value, out) && v' == EncodeIds(out);
        SelectedIsPermitted(p, mayField, mayId, model, ids, out);
      case Some(GenericRelationList) =>
        var fqids := DecodeFqids(v).value;
        var out :| IsListing(p.checkIds(fqids).value, out) && v' == EncodeFqids(out);
        ListingIffAsked(fqids, p.checkIds(fqids).value, out);
        assert AllowedFqids(fqids, mayId, out);
    }
  }

  // ---- What is left of a value, said of its JSON ----

  /** A value that the answer does not grant, or leaves out, is hidden; a granted one without a checker stays. */
  lemma {:induction false} HiddenOrKept(p: Permission, checks: Checks, allowed: map<Key, bool>, k: Key, v: Raw, v': Raw,
                                        collection: string, field: string)
    requires RestrictsBy(p, checks, allowed, k, v, v')
    ensures v == Nil || k !in allowed || allowed[k] == false ==> v' == Nil
    ensures k in allowed && allowed[k] && HasChecker(checks, collection, field, None) ==>
      BelongsTo(k, collection, field) ==> v' == v
  {
    if BelongsTo(k, collection, field) {
      var id, rest :| IsKeyOf(k, collection, id, field, rest);
      CheckerIs(checks, k, collection, id, field, rest);
    }
  }

  lemma {:induction false} ListIntsHas(items: seq<Json>, n: int)
    requires ListInts(items).Value?
    ensures n in ListInts(items).value <==> exists j :: j in items && IntOf(j, n)
  {
    if items != [] {
      var m := |items| - 1;
      ListIntsHas(items[..m], n);
      AsIntIff(items[m], n);
      assert items == items[..m] + [items[m]];
    }
  }

  lemma {:induction false} ListIntsReads(items: seq<Json>)
    ensures ListInts(items).Value? <==> forall j :: j in items ==> IsInt(j)
  {
    if items != [] {
      var m := |items| - 1;
      ListIntsReads(items[..m]);
      AsIntIff(items[m], 0);
      assert items == items[..m] + [items[m]];
    }
  }

  /** A checker reads null and lists of integers, or of strings, and nothing else. */
  lemma {:induction false} DecodesIff(v: Raw)
    ensures DecodeIds(v).Value?
        <==> v.Doc? && (v.json.Null? || (v.json.Arr? && forall j :: j in v.json.items ==> IsInt(j)))
    ensures DecodeFqids(v).Value?
        <==> v.Doc? && (v.json.Null? || (v.json.Arr? && forall j :: j in v.json.items ==> IsStr(j)))
  {
    if v.Doc? && v.json.Arr? {
      ListIntsReads(v.json.items);
      ListWordsAre(v.json.items, "");
      forall j ensures AsStr(j).Value? <==> IsStr(j) {
        AsStrIff(j, "");
      }
    }
  }

  /** The ids in a relation list that the user may see, as a JSON list. */
  ghost predicate ReducedIds(model: string, mayId: string -> bool, v: Raw, v': Raw) {
    && v.Doc? && v'.Doc? && v'.json.Arr? && NoDuplicates(v'.json.items)
    && forall x :: x in v'.json.items <==>
         v.json.Arr? && exists n :: x == Int(n) && mayId(model + "/" + Itoa(n)) && Lists(v.json.items, n)
  }

  ghost predicate Lists(items: seq<Json>, n: int) {
    exists j :: j in items && IntOf(j, n)
  }

  /** The objects in a generic relation list that the user may see. */
  ghost predicate ReducedFqids(mayId: string -> bool, v: Raw, v': Raw) {
    && v.Doc? && v'.Doc? && v'.json.Arr? && NoDuplicates(v'.json.items)
    && forall x :: x in v'.json.items <==>
         v.json.Arr? && x.Str? && mayId(x.text) && exists j :: j in v.json.items && StrOf(j, x.text)
  }

  lemma {:induction false} EncodedOnce<T(!new)>(out: seq<T>, items: seq<Json>, code: T -> Json)
    requires NoDuplicates(out) && |items| == |out| && forall i :: 0 <= i < |out| ==> items[i] == code(out[i])
    requires forall x, y :: code(x) == code(y) ==> x == y
    ensures NoDuplicates(items)
  {
  }

  lemma {:induction false} AllowedIdsReduce(model: string, mayId: string -> bool, v: Raw, out: seq<int>)
    requires DecodeIds(v).Value? && AllowedIds(DecodeIds(v).value, model, mayId, out)
    ensures ReducedIds(model, mayId, v, EncodeIds(out))
  {
    var items := EncodeIds(out).json.items;
    EncodedOnce(out, items, n => Int(n));
    forall x ensures x in items <==>
      v.json.Arr? && exists n :: x == Int(n) && mayId(model + "/" + Itoa(n)) && Lists(v.json.items, n)
    {
      EncodedIds(out, x);
      if x.Int? && v.json.Arr? {
        ListIntsHas(v.json.items, x.number);
        assert CollectionId(model, x.number) == model + "/" + Itoa(x.number);
      }
    }
  }

  lemma {:induction false} AllowedFqidsReduce(mayId: string -> bool, v: Raw, out: seq<string>)
    requires DecodeFqids(v).Value? && AllowedFqids(DecodeFqids(v).value, mayId, out)
    ensures ReducedFqids(mayId, v, EncodeFqids(out))
  {
    var items := EncodeFqids(out).json.items;
    EncodedOnce(out, items, w => Str(w));
    forall x ensures x in items <==>
      v.json.Arr? && x.Str? && mayId(x.text) && exists j :: j in v.json.items && StrOf(j, x.text)
    {
      EncodedFqids(out, x);
      if x.Str? && v.json.Arr? {
        ListWordsAre(v.json.items, x.text);
        forall j ensures AsStr(j) == Value(x.text) <==> StrOf(j, x.text) {
          AsStrIff(j, x.text);
        }
      }
    }
  }

  /**
   * What the permissions leave of a value, by the collection and the field of its key: nothing of a
   * hidden one, exactly the visible objects of a list with a checker, and all of any other value.
   */
  ghost predicate Leaves(checks: Checks, mayField: Key -> bool, mayId: string -> bool,
                         k: Key, collection: string, field: string, v: Raw, v': Raw) {
    if v == Nil || !mayField(k) then v' == Nil
    else
      && (HasChecker(checks, collection, field, None) ==> v' == v)
      && (forall model :: HasChecker(checks, collection, field, Some(Checker.RelationList(model))) ==>
            ReducedIds(model, mayId, v, v'))
      && (HasChecker(checks, collection, field, Some(GenericRelationList)) ==> ReducedFqids(mayId, v, v'))
  }

  lemma {:induction false} RestrictsLeaves(checks: Checks, mayField: Key -> bool, mayId: string -> bool,
                                           k: Key, collection: string, field: string, v: Raw, v': Raw)
    requires Restricts(checks, mayField, mayId, k, v, v') && BelongsTo(k, collection, field)
    ensures Leaves(checks, mayField, mayId, k, collection, field, v, v')
  {
    var id, rest :| IsKeyOf(k, collection, id, field, rest);
    CheckerIs(checks, k, collection, id, field, rest);
    if v != Nil && mayField(k) {
      match checks.For(k)
      case None =>
      case Some(RelationList(model)) =>
        var out :| AllowedIds(DecodeIds(v).value, model, mayId, out) && v' == EncodeIds(out);
        AllowedIdsReduce(model, mayId, v, out);
      case Some(GenericRelationList) =>
        var out :| AllowedFqids(DecodeFqids(v).value, mayId, out) && v' == EncodeFqids(out);
        AllowedFqidsReduce(mayId, v, out);
    }
  }

  /** With consistent answers `Restrict` leaves of each value exactly what the permissions leave of it. */
  lemma {:induction false} RestrictLeaves(p: Permission, checks: Checks, mayField: Key -> bool, mayId: string -> bool,
                                          data: map<Key, Raw>, keys: seq<Key>, r: map<Key, Raw>,
                                          k: Key, collection: string, field: string)
    requires Consistent(p, mayField, mayId) && Answered(p, checks, data, keys, Some(r))
    requires k in data && BelongsTo(k, collection, field)
    ensures k in r && Leaves(checks, mayField, mayId, k, collection, field, data[k], r[k])
  {
    assert k in Elements(keys);
    RestrictsAsPermitted(p, checks, mayField, mayId, keys, k, data[k], r[k]);
    RestrictsLeaves(checks, mayField, mayId, k, collection, field, data[k], r[k]);
  }

  // ---- Restricting twice ----

  lemma {:induction false} EncodedIds(out: seq<int>, x: Json)
    ensures x in EncodeIds(out).json.items <==> x.Int? && x.number in out
  {
    var items := EncodeIds(out).json.items;
    if x.Int? && x.number in out {
      var i :| 0 <= i < |out| && out[i] == x.number;
      assert items[i] == x;
    }
  }

  lemma {:induction false} EncodedFqids(out: seq<string>, x: Json)
    ensures x in EncodeFqids(out).json.items <==> x.Str? && x.text in out
  {
    var items := EncodeFqids(out).json.items;
    if x.Str? && x.text in out {
      var i :| 0 <= i < |out| && out[i] == x.text;
      assert items[i] == x;
    }
  }

  lemma {:induction false} IdListTwice(v: Raw, model: string, mayId: string -> bool, out: seq<int>, out': seq<int>)
    requires DecodeIds(v).Value? && AllowedIds(DecodeIds(v).value, model, mayId, out)
    requires DecodeIds(EncodeIds(out)).Value? && AllowedIds(DecodeIds(EncodeIds(out)).value, model, mayId, out')
    ensures SameUpToOrder(EncodeIds(out), EncodeIds(out'))
  {
    forall id | id in out ensures MIN_INT <= id <= MAX_INT {
      if v.json.Arr? {
        DecodedIdsInRange(v.json.items, id);
      }
    }
    IdsRoundTrip(out);
    SameIds(out, out');
  }

  lemma {:induction false} FqidListTwice(mayId: string -> bool, fqids: seq<string>, out: seq<string>, out': seq<string>)
    requires AllowedFqids(fqids, mayId, out)
    requires DecodeFqids(EncodeFqids(out)).Value? && AllowedFqids(DecodeFqids(EncodeFqids(out)).value, mayId, out')
    ensures SameUpToOrder(EncodeFqids(out), EncodeFqids(out'))
  {
    FqidsRoundTrip(out);
    SameFqids(out, out');
  }

  /** The permissions fix a restricted value up to the order of lists, which follows Go's map order. */
  lemma {:induction false} RestrictedOneWay(checks: Checks, mayField: Key -> bool, mayId: string -> bool,
                         k: Key, v: Raw, a: Raw, b: Raw)
    requires Restricts(checks, mayField, mayId, k, v, a) && Restricts(checks, mayField, mayId, k, v, b)
    ensures SameUpToOrder(a, b)
  {
    if v != Nil && mayField(k) {
      match checks.For(k)
      case None =>
      case Some(RelationList(model)) =>
        var ids := DecodeIds(v).value;
        var out :| AllowedIds(ids, model, mayId, out) && a == EncodeIds(out);
        var out' :| AllowedIds(ids, model, mayId, out') && b == EncodeIds(out');
        SameIds(out, out');
      case Some(GenericRelationList) =>
        var fqids := DecodeFqids(v).value;
        var out :| AllowedFqids(fqids, mayId, out) && a == EncodeFqids(out);
        var out' :| AllowedFqids(fqids, mayId, out') && b == EncodeFqids(out');
        SameFqids(out, out');
    }
  }

  lemma {:induction false} SameIds(a: seq<int>, b: seq<int>)
    requires NoDuplicates(a) && NoDuplicates(b) && forall id :: id in a <==> id in b
    ensures SameUpToOrder(EncodeIds(a), EncodeIds(b))
  {
    forall x ensures x in EncodeIds(a).json.items <==> x in EncodeIds(b).json.items {
      EncodedIds(a, x);
      EncodedIds(b, x);
    }
    SameDistinct(EncodeIds(a).json.items, EncodeIds(b).json.items);
  }

  lemma {:induction false} SameFqids(a: seq<string>, b: seq<string>)
    requires NoDuplicates(a) && NoDuplicates(b) && forall f :: f in a <==> f in b
    ensures SameUpToOrder(EncodeFqids(a), EncodeFqids(b))
  {
    forall x ensures x in EncodeFqids(a).json.items <==> x in EncodeFqids(b).json.items {
      EncodedFqids(a, x);
      EncodedFqids(b, x);
    }
    SameDistinct(EncodeFqids(a).json.items, EncodeFqids(b).json.items);
  }

  /** Restricting what is restricted already changes nothing but the order of lists. */
  lemma {:induction false} RestrictTwice(checks: Checks, mayField: Key -> bool, mayId: string -> bool,
                      k: Key, v: Raw, v': Raw, v'': Raw)
    requires Restricts(checks, mayField, mayId, k, v, v')
    requires Restricts(checks, mayField, mayId, k, v', v'')
    ensures SameUpToOrder(v', v'')
  {
    if v != Nil && mayField(k) {
      match checks.For(k)
      case None =>
      case Some(RelationList(model)) =>
        var out :| AllowedIds(DecodeIds(v).value, model, mayId, out) && v' == EncodeIds(out);
        var out' :| AllowedIds(DecodeIds(v').value, model, mayId, out') && v'' == EncodeIds(out');
        IdListTwice(v, model, mayId, out, out');
      case Some(GenericRelationList) =>
        var out :| AllowedFqids(DecodeFqids(v).value, mayId, out) && v' == EncodeFqids(out);
        var out' :| AllowedFqids(DecodeFqids(v').value, mayId, out') && v'' == EncodeFqids(out');
        FqidListTwice(mayId, DecodeFqids(v).value, out, out');
    }
  }
}
