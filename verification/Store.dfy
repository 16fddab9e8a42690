/**
 * The datastore as a log of change messages, and the last-wins merge that the
 * update feed performs on a segment of that log.
 */
module StoreLog {
  import opened Values

  type Message = map<Key, Raw>

  /** The store content when the feed's cursor was taken, and every message written since. */
  datatype Store = Store(base: map<Key, Raw>, log: seq<Message>) {

    /** The value of `k` after the first `p` messages, with `null` read as nil. */
    function At(k: Key, p: nat): Raw
      requires p <= |log|
    {
      if p == 0 then Normalize(Lookup(base, k))
      else if k in log[p - 1] then Normalize(log[p - 1][k])
      else At(k, p - 1)
    }

    function Write(m: Message): Store {
      this.(log := log + [m])
    }
  }

  /** `v` was the value of `k` at some position from `from` on. */
  ghost predicate Fresh(s: Store, k: Key, v: Raw, from: nat) {
    exists q: nat :: from <= q <= |s.log| && s.At(k, q) == v
  }

  /** Messages read together: a later message overwrites an earlier one. */
  function Merge(ms: seq<Message>): Message {
    if ms == [] then map[] else Merge(ms[..|ms| - 1]) + ms[|ms| - 1]
  }

  lemma {:induction false} MergeConcat(a: seq<Message>, b: seq<Message>)
    ensures Merge(a + b) == Merge(a) + Merge(b)
  {
    if b == [] {
      assert a + b == a;
    } else {
      var b' := b[..|b| - 1];
      assert (a + b)[..|a + b| - 1] == a + b';
      assert (a + b)[|a + b| - 1] == b[|b| - 1];
      MergeConcat(a, b');
      MergeAssoc(Merge(a), Merge(b'), b[|b| - 1]);
    }
  }

  lemma {:induction false} MergeAssoc(a: Message, b: Message, c: Message)
    ensures (a + b) + c == a + (b + c)
  {
  }

  lemma {:induction false} MergeCons(ms: seq<Message>)
    requires ms != []
    ensures Merge(ms) == ms[0] + Merge(ms[1..])
  {
    assert [ms[0]][..0] == [];
    assert Merge([ms[0]]) == ms[0];
    assert ms == [ms[0]] + ms[1..];
    MergeConcat([ms[0]], ms[1..]);
  }

  lemma {:induction false} MergeSegments(log: seq<Message>, p: nat, q: nat, r: nat)
    requires p <= q <= r <= |log|
    ensures Merge(log[p..r]) == Merge(log[p..q]) + Merge(log[q..r])
  {
    assert log[p..r] == log[p..q] + log[q..r];
    MergeConcat(log[p..q], log[q..r]);
  }

  /** The last value that a list of messages has for one key. */
  function LastWrite(ms: seq<Message>, k: Key): Option<Raw> {
    if ms == [] then None
    else if k in ms[|ms| - 1] then Some(ms[|ms| - 1][k])
    else LastWrite(ms[..|ms| - 1], k)
  }

  /** Merging is keeping the last write of each key. */
  lemma {:induction false} MergeIsLastWrite(ms: seq<Message>, k: Key)
    ensures LastWrite(ms, k) == if k in Merge(ms) then Some(Merge(ms)[k]) else None
  {
    if ms != [] {
      MergeIsLastWrite(ms[..|ms| - 1], k);
    }
  }

  lemma {:induction false} LastWriteConcat(a: seq<Message>, b: seq<Message>, k: Key)
    ensures LastWrite(a + b, k) == if LastWrite(b, k).Some? then LastWrite(b, k) else LastWrite(a, k)
  {
    if b == [] {
      assert a + b == a;
    } else {
      assert (a + b)[..|a + b| - 1] == a + b[..|b| - 1];
      LastWriteConcat(a, b[..|b| - 1], k);
    }
  }

  lemma {:induction false} LastWriteSegments(ms: seq<Message>, p: nat, q: nat, n: nat, k: Key)
    requires p <= q <= n <= |ms|
    ensures LastWrite(ms[p..n], k)
         == if LastWrite(ms[q..n], k).Some? then LastWrite(ms[q..n], k) else LastWrite(ms[p..q], k)
  {
    assert ms[p..n] == ms[p..q] + ms[q..n];
    LastWriteConcat(ms[p..q], ms[q..n], k);
  }

  lemma {:induction false} SameLastWrites(a: seq<Message>, b: seq<Message>)
    requires forall k :: LastWrite(a, k) == LastWrite(b, k)
    ensures Merge(a) == Merge(b)
  {
    var m, n := Merge(a), Merge(b);
    forall k ensures (k in m <==> k in n) && (k in m ==> m[k] == n[k]) {
      MergeIsLastWrite(a, k);
      MergeIsLastWrite(b, k);
    }
  }

  /** A key outside a merged segment keeps its store value over the segment. */
  lemma {:induction false} UntouchedKeepsValue(s: Store, k: Key, p: nat, q: nat)
    requires p <= q <= |s.log|
    requires k !in Merge(s.log[p..q])
    ensures s.At(k, p) == s.At(k, q)
    decreases q
  {
    if p < q {
      assert s.log[p..q][..q - p - 1] == s.log[p..q - 1];
      UntouchedKeepsValue(s, k, p, q - 1);
    }
  }

  /** A key inside a merged segment gets the store value at the segment's end. */
  lemma {:induction false} TouchedGetsLastValue(s: Store, k: Key, p: nat, q: nat)
    requires p <= q <= |s.log|
    requires k in Merge(s.log[p..q])
    ensures Normalize(Merge(s.log[p..q])[k]) == s.At(k, q)
    decreases q
  {
    if p < q {
      assert s.log[p..q][..q - p - 1] == s.log[p..q - 1];
      if k !in s.log[q - 1] {
        TouchedGetsLastValue(s, k, p, q - 1);
      }
    }
  }

  /** Later writes do not change what the store held at an earlier position. */
  lemma {:induction false} WriteKeepsPast(s: Store, m: Message, k: Key, p: nat)
    requires p <= |s.log|
    ensures s.Write(m).At(k, p) == s.At(k, p)
  {
    if p > 0 {
      WriteKeepsPast(s, m, k, p - 1);
    }
  }

  lemma {:induction false} WriteKeepsFresh(s: Store, m: Message, k: Key, v: Raw, from: nat)
    requires Fresh(s, k, v, from)
    ensures Fresh(s.Write(m), k, v, from)
  {
    var q: nat :| from <= q <= |s.log| && s.At(k, q) == v;
    WriteKeepsPast(s, m, k, q);
  }

  /** Freshness survives a segment that does not touch the key. */
  lemma {:induction false} FreshOverSegment(s: Store, k: Key, v: Raw, p: nat, q: nat)
    requires p <= q <= |s.log|
    requires Fresh(s, k, v, p)
    requires k !in Merge(s.log[p..q])
    ensures Fresh(s, k, v, q)
  {
    var r: nat :| p <= r <= |s.log| && s.At(k, r) == v;
    if r < q {
      MergeSegments(s.log, p, r, q);
      UntouchedKeepsValue(s, k, r, q);
    }
  }

  /** What a reader sees of a written value: null reads as nil. */
  ghost predicate ReadsAs(written: Option<Raw>, v: Raw) {
    match written
    case None => v == Nil
    case Some(w) => v == if w == Doc(Null) then Nil else w
  }

  /** The store holds the last write of a key; before any write, the value of the start; and never null. */
  lemma {:induction false} AtIsLastWrite(s: Store, k: Key, p: nat)
    requires p <= |s.log|
    ensures var written := LastWrite(s.log[..p], k);
      ReadsAs(if written.Some? then written else if k in s.base then Some(s.base[k]) else None, s.At(k, p))
    ensures s.At(k, p) != Doc(Null)
  {
    if p > 0 {
      assert s.log[..p][..p - 1] == s.log[..p - 1];
      AtIsLastWrite(s, k, p - 1);
    }
  }
}
