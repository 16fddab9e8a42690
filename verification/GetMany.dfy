/** The get_many protocol: keys nested by collection, id and field, and flattened again. */
module GetMany {
  import opened Values

  type Nested = map<string, map<string, map<string, Raw>>>

  // ---- Splitting keys ----

  predicate SlashFree(s: string) {
    '/' !in s
  }

  function Join(collection: string, id: string, field: string): Key {
    collection + "/" + id + "/" + field
  }

  /** Two strings at a slash; the first one has no slash. */
  function FirstSlash(s: string): (n: nat)
    ensures n <= |s| && SlashFree(s[..n]) && (n < |s| ==> s[n] == '/')
  {
    if s == [] || s[0] == '/' then 0
    else
      var n := FirstSlash(s[1..]);
      assert s[..n + 1] == [s[0]] + s[1..][..n];
      n + 1
  }

  /** The key has at least three parts. */
  predicate HasParts(k: Key) {
    var n := FirstSlash(k);
    n < |k| && FirstSlash(k[n + 1..]) < |k| - n - 1
  }

  /** `strings.SplitN(key, "/", 3)`: the field keeps any further slashes. */
  function Split(k: Key): (string, string, string)
    requires HasParts(k)
  {
    var n := FirstSlash(k);
    var rest := k[n + 1..];
    var m := FirstSlash(rest);
    (k[..n], rest[..m], rest[m + 1..])
  }

  lemma {:induction false} FirstSlashAt(a: string, b: string)
    requires SlashFree(a)
    ensures FirstSlash(a + "/" + b) == |a|
  {
    if a != [] {
      FirstSlashAt(a[1..], b);
      assert (a + "/" + b)[1..] == a[1..] + "/" + b;
    }
  }

  lemma {:induction false} CutAt(s: string, n: nat)
    requires n < |s| && s[n] == '/'
    ensures s == s[..n] + "/" + s[n + 1..]
  {
  }

  lemma {:induction false} JoinNested(c: string, i: string, f: string)
    ensures Join(c, i, f) == c + "/" + (i + "/" + f)
  {
  }

  /** Joining undoes splitting... */
  lemma {:induction false} JoinSplit(k: Key)
    requires HasParts(k)
    ensures SlashFree(Split(k).0) && SlashFree(Split(k).1)
    ensures Join(Split(k).0, Split(k).1, Split(k).2) == k
  {
    CutAt(k, FirstSlash(k));
    CutAt(k[FirstSlash(k) + 1..], FirstSlash(k[FirstSlash(k) + 1..]));
    JoinNested(Split(k).0, Split(k).1, Split(k).2);
  }

  /** ... and splitting undoes joining, so different slash-free triples give different keys. */
  lemma {:induction false} SplitJoin(c: string, i: string, f: string)
    requires SlashFree(c) && SlashFree(i)
    ensures HasParts(Join(c, i, f)) && Split(Join(c, i, f)) == (c, i, f)
  {
    var k, rest := Join(c, i, f), i + "/" + f;
    JoinNested(c, i, f);
    FirstSlashAt(c, rest);
    assert k[..|c|] == c && k[|c| + 1..] == rest;
    FirstSlashAt(i, f);
    assert rest[..|i|] == i && rest[|i| + 1..] == f;
  }

  // ---- Nested data ----

  predicate Has(n: Nested, c: string, i: string, f: string) {
    c in n && i in n[c] && f in n[c][i]
  }

  function Put(n: Nested, c: string, i: string, f: string, v: Raw): Nested {
    var ids := if c in n then n[c] else map[];
    var fields := if i in ids then ids[i] else map[];
    n[c := ids[i := fields[f := v]]]
  }

  lemma {:induction false} PutEffect(n: Nested, c: string, i: string, f: string, v: Raw)
    ensures forall x, y, z :: Has(Put(n, c, i, f, v), x, y, z) <==> Has(n, x, y, z) || (x, y, z) == (c, i, f)
    ensures forall x, y, z :: Has(Put(n, c, i, f, v), x, y, z) ==>
      Put(n, c, i, f, v)[x][y][z] == if (x, y, z) == (c, i, f) then v else n[x][y][z]
  {
  }

  /** `n` holds the stored ones of these keys, and nothing else. */
  ghost predicate Answers(keys: seq<Key>, store: map<Key, Raw>, n: Nested) {
    && (forall c, i, f :: Has(n, c, i, f) ==>
          SlashFree(c) && SlashFree(i) && Join(c, i, f) in keys && Join(c, i, f) in store
          && n[c][i][f] == store[Join(c, i, f)])
    && (forall k :: k in keys && k in store ==> HasParts(k) && Has(n, Split(k).0, Split(k).1, Split(k).2))
  }

  /** The nesting loop of the example datastore; a stored key with less than three parts would panic. */
  method Nest(keys: seq<Key>, store: map<Key, Raw>) returns (n: Nested)
    requires forall k :: k in keys && k in store ==> HasParts(k)
    ensures Answers(keys, store, n)
  {
    n := map[];
    for j := 0 to |keys|
      invariant Answers(keys[..j], store, n)
    {
      var k := keys[j];
      assert keys[..j + 1] == keys[..j] + [k];
      if k !in store {
        continue;
      }
      var (c, i, f) := Split(k);
      PutAnswers(keys[..j], store, n, k);
      n := Insert(n, c, i, f, store[k]);
    }
    assert keys[..|keys|] == keys;
  }

  /** The inner maps are made when they are first needed. */
  method Insert(n: Nested, c: string, i: string, f: string, v: Raw) returns (n': Nested)
    ensures n' == Put(n, c, i, f, v)
  {
    n' := n;
    if c !in n' {
      n' := n'[c := map[]];
    }
    if i !in n'[c] {
      n' := n'[c := n'[c][i := map[]]];
    }
    n' := n'[c := n'[c][i := n'[c][i][f := v]]];
    assert n'[c][i] == Put(n, c, i, f, v)[c][i];
    assert n'[c] == Put(n, c, i, f, v)[c];
  }

  lemma {:induction false} PutAnswers(keys: seq<Key>, store: map<Key, Raw>, n: Nested, k: Key)
    requires Answers(keys, store, n) && k in store && HasParts(k)
    ensures Answers(keys + [k], store, Put(n, Split(k).0, Split(k).1, Split(k).2, store[k]))
  {
    var (c, i, f) := Split(k);
    JoinSplit(k);
    PutEffect(n, c, i, f, store[k]);
  }

  // ---- Flattening ----

  ghost predicate FromPath(n: Nested, k: Key, v: Raw) {
    exists c, i, f :: Has(n, c, i, f) && Join(c, i, f) == k && n[c][i][f] == v
  }

  ghost predicate Flattens(n: Nested, kv: map<Key, Raw>) {
    && (forall k :: k in kv ==> FromPath(n, k, kv[k]))
    && (forall c, i, f :: Has(n, c, i, f) ==> Join(c, i, f) in kv)
  }

  /** Everything in the flat data comes from a leaf. */
  ghost predicate OnlyLeaves(n: Nested, kv: map<Key, Raw>) {
    forall k :: k in kv ==> FromPath(n, k, kv[k])
  }

  /** The leaves of one object are in the flat data. */
  ghost predicate ObjectDone(n: Nested, c: string, i: string, keys: set<Key>) {
    forall f :: Has(n, c, i, f) ==> Join(c, i, f) in keys
  }

  ghost predicate CollectionDone(n: Nested, c: string, keys: set<Key>) {
    forall i :: c in n && i in n[c] ==> ObjectDone(n, c, i, keys)
  }

  /** `getManyResponceToKeyValue`, after decoding. */
  method Flatten(n: Nested) returns (kv: map<Key, Raw>)
    ensures Flattens(n, kv)
  {
    kv := map[];
    var cs := n.Keys;
    while cs != {}
      invariant cs <= n.Keys && OnlyLeaves(n, kv)
      invariant forall c :: c in n && c !in cs ==> CollectionDone(n, c, kv.Keys)
      decreases cs
    {
      var c :| c in cs;
      ghost var before := kv.Keys;
      kv := FlattenIds(n, c, kv);
      forall d | d in n && CollectionDone(n, d, before) ensures CollectionDone(n, d, kv.Keys) {
        CollectionStaysDone(n, d, before, kv.Keys);
      }
      cs := cs - {c};
    }
    forall c, i, f | Has(n, c, i, f) ensures Join(c, i, f) in kv {
      assert CollectionDone(n, c, kv.Keys) && ObjectDone(n, c, i, kv.Keys);
    }
  }

  lemma {:induction false} ObjectStaysDone(n: Nested, c: string, i: string, keys: set<Key>, more: set<Key>)
    requires ObjectDone(n, c, i, keys) && keys <= more
    ensures ObjectDone(n, c, i, more)
  {
  }

  lemma {:induction false} CollectionStaysDone(n: Nested, c: string, keys: set<Key>, more: set<Key>)
    requires CollectionDone(n, c, keys) && keys <= more
    ensures CollectionDone(n, c, more)
  {
    forall i | c in n && i in n[c] ensures ObjectDone(n, c, i, more) {
      ObjectStaysDone(n, c, i, keys, more);
    }
  }

  method FlattenIds(n: Nested, c: string, start: map<Key, Raw>) returns (kv: map<Key, Raw>)
    requires c in n && OnlyLeaves(n, start)
    ensures start.Keys <= kv.Keys && OnlyLeaves(n, kv) && CollectionDone(n, c, kv.Keys)
  {
    kv := start;
    var ids := n[c].Keys;
    while ids != {}
      invariant ids <= n[c].Keys && start.Keys <= kv.Keys && OnlyLeaves(n, kv)
      invariant forall i :: i in n[c] && i !in ids ==> ObjectDone(n, c, i, kv.Keys)
      decreases ids
    {
      var i :| i in ids;
      ghost var before := kv.Keys;
      kv := FlattenFields(n, c, i, kv);
      forall j | j in n[c] && ObjectDone(n, c, j, before) ensures ObjectDone(n, c, j, kv.Keys) {
        ObjectStaysDone(n, c, j, before, kv.Keys);
      }
      ids := ids - {i};
    }
  }

  method FlattenFields(n: Nested, c: string, i: string, start: map<Key, Raw>) returns (kv: map<Key, Raw>)
    requires c in n && i in n[c] && OnlyLeaves(n, start)
    ensures start.Keys <= kv.Keys && OnlyLeaves(n, kv) && ObjectDone(n, c, i, kv.Keys)
  {
    kv := start;
    var fs := n[c][i].Keys;
    while fs != {}
      invariant fs <= n[c][i].Keys && start.Keys <= kv.Keys && OnlyLeaves(n, kv)
      invariant forall f :: f in n[c][i] && f !in fs ==> Join(c, i, f) in kv
      decreases fs
    {
      var f :| f in fs;
      assert Has(n, c, i, f);
      kv := kv[Join(c, i, f) := n[c][i][f]];
      fs := fs - {f};
    }
  }

  /**
   * Nesting and flattening undo each other: the client gets exactly the stored ones of the
   * keys it asked for, so an answer never holds a key that was not requested.
   */
  lemma {:induction false} FlattenUndoesNest(keys: seq<Key>, store: map<Key, Raw>, n: Nested, kv: map<Key, Raw>)
    requires Answers(keys, store, n) && Flattens(n, kv)
    ensures kv == map k | k in store && k in keys :: store[k]
  {
    forall k | k in kv ensures k in store && k in keys && kv[k] == store[k] {
      assert FromPath(n, k, kv[k]);
    }
    forall k | k in store && k in keys ensures k in kv {
      JoinSplit(k);
    }
  }

  /** Conversely, nesting what was flattened gives the same nested data back. */
  lemma {:induction false} NestUndoesFlatten(n: Nested, kv: map<Key, Raw>, c: string, i: string, f: string)
    requires Flattens(n, kv) && SlashFree(c) && SlashFree(i)
    requires forall x, y, z :: Has(n, x, y, z) ==> SlashFree(x) && SlashFree(y)
    ensures Has(n, c, i, f) <==> Join(c, i, f) in kv
    ensures Has(n, c, i, f) ==> kv[Join(c, i, f)] == n[c][i][f]
  {
    if Join(c, i, f) in kv {
      assert FromPath(n, Join(c, i, f), kv[Join(c, i, f)]);
      var x, y, z :| Has(n, x, y, z) && Join(x, y, z) == Join(c, i, f) && n[x][y][z] == kv[Join(c, i, f)];
      SplitJoin(c, i, f);
      SplitJoin(x, y, z);
    }
  }

  /** The flat data has exactly the leaves, each under collection, id and field with slashes between. */
  lemma {:induction false} FlatKeys(n: Nested, kv: map<Key, Raw>, k: Key)
    requires Flattens(n, kv)
    ensures k in kv <==> exists c, i, f :: Has(n, c, i, f) && k == c + "/" + i + "/" + f
    ensures k in kv ==> exists c, i, f :: Has(n, c, i, f) && k == c + "/" + i + "/" + f && kv[k] == n[c][i][f]
  {
    if k in kv {
      assert FromPath(n, k, kv[k]);
      var c, i, f :| Has(n, c, i, f) && Join(c, i, f) == k && n[c][i][f] == kv[k];
      assert k == c + "/" + i + "/" + f;
    }
    if exists c, i, f :: Has(n, c, i, f) && k == c + "/" + i + "/" + f {
      var c, i, f :| Has(n, c, i, f) && k == c + "/" + i + "/" + f;
      assert Join(c, i, f) == k;
    }
  }
}
