/** Keys, JSON values and raw messages shared by every part of the service. */
module Values {

  datatype Option<+T> = None | Some(value: T)

  /** A fully qualified field `collection/id/field`. */
  type Key = string

  /**
   * A JSON value, of the store or of a request. `Fraction` stands for every number that is not
   * written as an integer.
   */
  datatype Json =
    | Null
    | Bool(flag: bool)
    | Int(number: int)
    | Fraction
    | Str(text: string)
    | Arr(items: seq<Json>)
    | Obj(members: map<string, Json>)

  /** A raw message: the nil slice, bytes that are not JSON, or a JSON document. */
  datatype Raw = Nil | Bytes(bytes: string) | Doc(json: Json)

  /** `len(value) == 0`: the nil slice and the empty slice. */
  predicate IsEmpty(v: Raw) {
    v == Nil || v == Bytes("")
  }

  /** The cache stores the document `null` as nil. */
  function Normalize(v: Raw): Raw {
    if v == Doc(Null) then Nil else v
  }

  /** Go's map read: a missing key gives the zero value. */
  function Lookup(m: map<Key, Raw>, k: Key): Raw {
    if k in m then m[k] else Nil
  }

  /** The elements of a list. */
  function Elements<T(==)>(s: seq<T>): set<T> {
    set x | x in s
  }

  lemma {:induction false} ElementsAppend<T>(s: seq<T>, x: T)
    ensures Elements(s + [x]) == Elements(s) + {x}
  {
  }

  ghost predicate NoDuplicates<T>(s: seq<T>) {
    forall i, j :: 0 <= i < j < |s| ==> s[i] != s[j]
  }

  lemma {:induction false} NoDuplicatesConcat<T>(a: seq<T>, b: seq<T>)
    requires NoDuplicates(a) && NoDuplicates(b)
    requires forall x :: x in a ==> x !in b
    ensures NoDuplicates(a + b)
  {
    forall i, j | 0 <= i < j < |a + b| ensures (a + b)[i] != (a + b)[j] {
      if i < |a| <= j {
        assert a[i] in a && b[j - |a|] in b;
      }
    }
  }

  lemma {:induction false} CountDistinct<T>(s: seq<T>, x: T)
    requires NoDuplicates(s)
    ensures multiset(s)[x] == if x in s then 1 else 0
  {
    if s != [] {
      var n := |s| - 1;
      CountDistinct(s[..n], x);
      assert s == s[..n] + [s[n]];
    }
  }

  /** Lists of the same elements, each once, are the same up to their order. */
  lemma {:induction false} SameDistinct<T>(a: seq<T>, b: seq<T>)
    requires NoDuplicates(a) && NoDuplicates(b) && forall x :: x in a <==> x in b
    ensures multiset(a) == multiset(b)
  {
    forall x ensures multiset(a)[x] == multiset(b)[x] {
      CountDistinct(a, x);
      CountDistinct(b, x);
    }
  }

  /** The same value, or the same list in another order. */
  ghost predicate SameUpToOrder(a: Raw, b: Raw) {
    a == b || (a.Doc? && b.Doc? && a.json.Arr? && b.json.Arr?
               && multiset(a.json.items) == multiset(b.json.items))
  }
}
