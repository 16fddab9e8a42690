/** The delta filter: what a client is sent, what the filter remembers, and what the client then has. */
module Delta {
  import opened Values

  /** A 64-bit hash. */
  type Sum64 = n: nat | n < 0x1_0000_0000_0000_0000

  /** Hashes of the values sent; zero marks a removed value. */
  type History = map<Key, Sum64>

  /** What the client has accumulated. */
  type View = map<Key, Raw>

  type Hash = Raw -> Sum64

  /** The client's side: an empty value removes its key, any other value sets it. */
  function Receive(view: View, sent: map<Key, Raw>): View {
    map k | k in view.Keys + sent.Keys && !(k in sent && IsEmpty(sent[k])) ::
      if k in sent then sent[k] else view[k]
  }

  /** Nil and the empty slice remove a key; any other value is what the client then has. */
  lemma {:induction false} ReceiveIs(view: View, sent: map<Key, Raw>, k: Key)
    ensures k in sent && (sent[k] == Nil || sent[k] == Bytes("")) ==> k !in Receive(view, sent)
    ensures k in sent && sent[k] != Nil && sent[k] != Bytes("") ==>
      k in Receive(view, sent) && Receive(view, sent)[k] == sent[k]
    ensures k !in sent ==> Same(Receive(view, sent), view, k)
  {
  }

  function HashAt(h: History, k: Key): Sum64 {
    if k in h then h[k] else 0
  }

  /** `Next` drops empty values for keys that the client does not hold. */
  function DropEmpty(h: History, data: map<Key, Raw>): map<Key, Raw> {
    map k | k in data && !(IsEmpty(data[k]) && HashAt(h, k) == 0) :: data[k]
  }

  predicate Unchanged(hash: Hash, h: History, k: Key, v: Raw) {
    !IsEmpty(v) && k in h && h[k] == hash(v)
  }

  /** The entries that the filter keeps. */
  function Kept(hash: Hash, h: History, data: map<Key, Raw>): map<Key, Raw> {
    map k | k in data && !Unchanged(hash, h, k, data[k]) :: data[k]
  }

  function Remember(hash: Hash, h: History, data: map<Key, Raw>): History {
    h + map k | k in data :: if IsEmpty(data[k]) then 0 else hash(data[k])
  }

  /** The response to the client, and the history after it. */
  function Sent(hash: Hash, h: History, data: map<Key, Raw>): map<Key, Raw> {
    Kept(hash, h, DropEmpty(h, data))
  }

  function After(hash: Hash, h: History, data: map<Key, Raw>): History {
    Remember(hash, h, DropEmpty(h, data))
  }

  /** The filter object. */
  class Filter {
    var history: History

    constructor ()
      ensures history == map[]
    {
      history := map[];
    }

    method Run(hash: Hash, data: map<Key, Raw>) returns (kept: map<Key, Raw>)
      modifies this
      ensures kept == Kept(hash, old(history), data)
      ensures history == Remember(hash, old(history), data)
    {
      ghost var h := history;
      kept := data;
      var todo := data.Keys;
      RunStarts(hash, h, data);
      while todo != {}
        invariant todo <= data.Keys
        invariant history == RememberButFor(hash, h, data, todo)
        invariant kept == KeptButFor(hash, h, data, todo)
        decreases todo
      {
        var key :| key in todo;
        KeptNext(hash, h, data, todo, key);
        RememberNext(hash, h, data, todo, key);
        var value := data[key];
        if IsEmpty(value) {
          history := history[key := 0];
        } else if key in history && history[key] == hash(value) {
          kept := kept - {key};
        } else {
          history := history[key := hash(value)];
        }
        todo := todo - {key};
      }
    }

    /** `Next` drops empty values that were empty before, then filters. */
    method DropThenRun(hash: Hash, data: map<Key, Raw>) returns (sent: map<Key, Raw>)
      modifies this
      ensures sent == Sent(hash, old(history), data)
      ensures history == After(hash, old(history), data)
    {
      var left := DropEmptyOf(history, data);
      sent := Run(hash, left);
    }
  }

  method DropEmptyOf(h: History, data: map<Key, Raw>) returns (left: map<Key, Raw>)
    ensures left == DropEmpty(h, data)
  {
    left := data;
    var todo := data.Keys;
    DropStarts(h, data);
    while todo != {}
      invariant todo <= data.Keys
      invariant left == DropButFor(h, data, todo)
      decreases todo
    {
      var key :| key in todo;
      DropNext(h, data, todo, key);
      if IsEmpty(data[key]) && HashAt(h, key) == 0 {
        left := left - {key};
      }
      todo := todo - {key};
    }
  }

  // ---- Loops over a map, with the keys in `todo` still ahead ----

  function DropButFor(h: History, data: map<Key, Raw>, todo: set<Key>): map<Key, Raw> {
    map k | k in data && (k in todo || !(IsEmpty(data[k]) && HashAt(h, k) == 0)) :: data[k]
  }

  lemma {:induction false} DropStarts(h: History, data: map<Key, Raw>)
    ensures DropButFor(h, data, data.Keys) == data && DropButFor(h, data, {}) == DropEmpty(h, data)
  {
  }

  lemma {:induction false} DropNext(h: History, data: map<Key, Raw>, todo: set<Key>, key: Key)
    requires key in todo && todo <= data.Keys
    ensures DropButFor(h, data, todo - {key})
         == if IsEmpty(data[key]) && HashAt(h, key) == 0 then DropButFor(h, data, todo) - {key}
            else DropButFor(h, data, todo)
  {
  }

  function KeptButFor(hash: Hash, h: History, data: map<Key, Raw>, todo: set<Key>): map<Key, Raw> {
    map k | k in data && (k in todo || !Unchanged(hash, h, k, data[k])) :: data[k]
  }

  function RememberButFor(hash: Hash, h: History, data: map<Key, Raw>, todo: set<Key>): History {
    h + map k | k in data && k !in todo :: if IsEmpty(data[k]) then 0 else hash(data[k])
  }

  lemma {:induction false} RunStarts(hash: Hash, h: History, data: map<Key, Raw>)
    ensures KeptButFor(hash, h, data, data.Keys) == data && KeptButFor(hash, h, data, {}) == Kept(hash, h, data)
    ensures RememberButFor(hash, h, data, data.Keys) == h
    ensures RememberButFor(hash, h, data, {}) == Remember(hash, h, data)
  {
  }

  lemma {:induction false} KeptNext(hash: Hash, h: History, data: map<Key, Raw>, todo: set<Key>, key: Key)
    requires key in todo && todo <= data.Keys
    ensures KeptButFor(hash, h, data, todo - {key})
         == if Unchanged(hash, h, key, data[key]) then KeptButFor(hash, h, data, todo) - {key}
            else KeptButFor(hash, h, data, todo)
  {
  }

  lemma {:induction false} RememberNext(hash: Hash, h: History, data: map<Key, Raw>, todo: set<Key>, key: Key)
    requires key in todo && todo <= data.Keys
    ensures var before := RememberButFor(hash, h, data, todo);
      && HashAt(before, key) == HashAt(h, key) && (key in before <==> key in h)
      && RememberButFor(hash, h, data, todo - {key})
         == before[key := if IsEmpty(data[key]) then 0 else hash(data[key])]
  {
  }

  // ---- What the filter knows about the client ----

  /** The history holds the hash of each value that the client has, and zero or nothing otherwise. */
  ghost predicate Tracks(hash: Hash, h: History, view: View) {
    && (forall k :: k in view ==> !IsEmpty(view[k]) && k in h)
    && (forall k :: HashAt(h, k) == if k in view then hash(view[k]) else 0)
  }

  /** The filter keeps track of the client, also when hashes collide or are zero. */
  lemma {:induction false} TracksKept(hash: Hash, h: History, view: View, data: map<Key, Raw>)
    requires Tracks(hash, h, view)
    ensures Tracks(hash, After(hash, h, data), Receive(view, Sent(hash, h, data)))
  {
    var view', h' := Receive(view, Sent(hash, h, data)), After(hash, h, data);
    forall k ensures HashAt(h', k) == if k in view' then hash(view'[k]) else 0 {
      TrackKey(hash, h, view, data, k);
    }
  }

  lemma {:induction false} TrackKey(hash: Hash, h: History, view: View, data: map<Key, Raw>, k: Key)
    requires Tracks(hash, h, view)
    ensures var view' := Receive(view, Sent(hash, h, data));
      HashAt(After(hash, h, data), k) == if k in view' then hash(view'[k]) else 0
  {
    assert HashAt(h, k) == if k in view then hash(view[k]) else 0;
  }

  /**
   * A change that the filter does not show to the client: a held value is replaced by one with the
   * same hash, or removed although its hash is zero; or a value with the hash zero comes for a key
   * that was removed before.
   */
  ghost predicate Hides(hash: Hash, h: History, view: View, data: map<Key, Raw>, k: Key) {
    && k in data
    && if k in view then
         if IsEmpty(data[k]) then hash(view[k]) == 0 else view[k] != data[k] && hash(view[k]) == hash(data[k])
       else k in h && !IsEmpty(data[k]) && hash(data[k]) == 0
  }

  ghost predicate Faithful(hash: Hash, h: History, view: View, data: map<Key, Raw>) {
    forall k :: !Hides(hash, h, view, data, k)
  }

  /** After a delta the client has what the full data would have given it, unless a change hides. */
  lemma {:induction false} DeltaEqualsFull(hash: Hash, h: History, view: View, data: map<Key, Raw>)
    requires Tracks(hash, h, view)
    ensures Receive(view, Sent(hash, h, data)) == Receive(view, data)
        <==> Faithful(hash, h, view, data)
  {
    var delta, full := Receive(view, Sent(hash, h, data)), Receive(view, data);
    forall k ensures Same(delta, full, k) <==> !Hides(hash, h, view, data, k) {
      DeltaKey(hash, h, view, data, k);
    }
    if Faithful(hash, h, view, data) {
      assert forall k :: Same(delta, full, k);
      SameEverywhere(delta, full);
    }
  }

  ghost predicate Same(a: View, b: View, k: Key) {
    (k in a <==> k in b) && (k in a && k in b ==> a[k] == b[k])
  }

  lemma {:induction false} SameEverywhere(a: View, b: View)
    requires forall k :: Same(a, b, k)
    ensures a == b
  {
    assert forall k :: k in a ==> Same(a, b, k);
    assert forall k :: k in b ==> Same(a, b, k);
  }

  lemma {:induction false} DeltaKey(hash: Hash, h: History, view: View, data: map<Key, Raw>, k: Key)
    requires Tracks(hash, h, view)
    ensures Same(Receive(view, Sent(hash, h, data)), Receive(view, data), k) <==> !Hides(hash, h, view, data, k)
  {
    assert HashAt(h, k) == if k in view then hash(view[k]) else 0;
  }

  /** Every entry of a response changes what the client has. */
  lemma {:induction false} DeltaIsMinimal(hash: Hash, h: History, view: View, data: map<Key, Raw>, k: Key)
    requires Tracks(hash, h, view) && k in Sent(hash, h, data)
    ensures !Same(Receive(view, Sent(hash, h, data)), view, k)
  {
    assert HashAt(h, k) == if k in view then hash(view[k]) else 0;
  }

  // ---- Whole runs ----

  /** The history after the restricted data of a run of `Next` calls. */
  function HistoryAfter(hash: Hash, datas: seq<map<Key, Raw>>): History {
    if datas == [] then map[]
    else After(hash, HistoryAfter(hash, datas[..|datas| - 1]), datas[|datas| - 1])
  }

  /** What the client has after the responses. */
  function DeltaView(hash: Hash, datas: seq<map<Key, Raw>>): View {
    if datas == [] then map[]
    else
      var init := datas[..|datas| - 1];
      Receive(DeltaView(hash, init), Sent(hash, HistoryAfter(hash, init), datas[|datas| - 1]))
  }

  /** What it would have if all data were sent each time. */
  function FullView(datas: seq<map<Key, Raw>>): View {
    if datas == [] then map[] else Receive(FullView(datas[..|datas| - 1]), datas[|datas| - 1])
  }

  lemma {:induction false} HistoryTracksView(hash: Hash, datas: seq<map<Key, Raw>>)
    ensures Tracks(hash, HistoryAfter(hash, datas), DeltaView(hash, datas))
  {
    if datas != [] {
      var init := datas[..|datas| - 1];
      HistoryTracksView(hash, init);
      TracksKept(hash, HistoryAfter(hash, init), DeltaView(hash, init), datas[|datas| - 1]);
    }
  }

  /** No response of the run hides a change. */
  ghost predicate NothingHidden(hash: Hash, datas: seq<map<Key, Raw>>) {
    datas == [] ||
    var init := datas[..|datas| - 1];
    NothingHidden(hash, init) && Faithful(hash, HistoryAfter(hash, init), FullView(init), datas[|datas| - 1])
  }

  /** After every response of the run the client has what sending everything would have given it. */
  ghost predicate AlwaysFull(hash: Hash, datas: seq<map<Key, Raw>>) {
    DeltaView(hash, datas) == FullView(datas) && (datas == [] || AlwaysFull(hash, datas[..|datas| - 1]))
  }

  /** Cheap deltas give the same view as sending everything, over every run, exactly when no change hides. */
  lemma {:induction false} RunsOfDeltasEqualFull(hash: Hash, datas: seq<map<Key, Raw>>)
    ensures AlwaysFull(hash, datas) <==> NothingHidden(hash, datas)
  {
    if datas != [] {
      var init := datas[..|datas| - 1];
      RunsOfDeltasEqualFull(hash, init);
      HistoryTracksView(hash, init);
      DeltaEqualsFull(hash, HistoryAfter(hash, init), DeltaView(hash, init), datas[|datas| - 1]);
    }
  }

  /** No response of any run resends what the client has or removes what it does not have. */
  lemma {:induction false} RunsOfDeltasAreMinimal(hash: Hash, datas: seq<map<Key, Raw>>, data: map<Key, Raw>, k: Key)
    requires k in Sent(hash, HistoryAfter(hash, datas), data)
    ensures !Same(DeltaView(hash, datas + [data]), DeltaView(hash, datas), k)
  {
    assert (datas + [data])[..|datas|] == datas;
    HistoryTracksView(hash, datas);
    DeltaIsMinimal(hash, HistoryAfter(hash, datas), DeltaView(hash, datas), data, k);
  }

  // ---- Zero is a hash, and the mark of a removed value ----

  function Only(k: Key, v: Raw): map<Key, Raw> {
    map[k := v]
  }

  /** Where a run has led filter and client, and where sending everything would have led the client. */
  ghost predicate Reaches(hash: Hash, datas: seq<map<Key, Raw>>, h: History, delta: View, full: View) {
    HistoryAfter(hash, datas) == h && DeltaView(hash, datas) == delta && FullView(datas) == full
  }

  lemma {:induction false} ReachesNext(hash: Hash, datas: seq<map<Key, Raw>>, data: map<Key, Raw>,
                                       h: History, delta: View, full: View)
    requires Reaches(hash, datas, h, delta, full)
    ensures Reaches(hash, datas + [data], After(hash, h, data),
                    Receive(delta, Sent(hash, h, data)), Receive(full, data))
  {
    assert (datas + [data])[..|datas|] == datas;
  }

  lemma {:induction false} ReachesFirst(hash: Hash, k: Key, v: Raw)
    requires !IsEmpty(v)
    ensures Reaches(hash, [Only(k, v)], map[k := hash(v)], Only(k, v), Only(k, v))
  {
    ReachesNext(hash, [], Only(k, v), map[], map[], map[]);
    assert [] + [Only(k, v)] == [Only(k, v)];
    assert After(hash, map[], Only(k, v)) == map[k := hash(v)];
    assert Receive(map[], Sent(hash, map[], Only(k, v))) == Only(k, v) == Receive(map[], Only(k, v));
  }

  /** What the filter makes of a removal. */
  lemma {:induction false} Removal(hash: Hash, h: History, k: Key, v: Raw)
    requires h == map[k := hash(v)]
    ensures After(hash, h, Only(k, Nil)) == map[k := 0]
    ensures Sent(hash, h, Only(k, Nil)) == if hash(v) == 0 then map[] else Only(k, Nil)
  {
    var left := DropEmpty(h, Only(k, Nil));
    if hash(v) == 0 {
      assert left == map[];
    } else {
      assert left == Only(k, Nil);
    }
  }

  lemma {:induction false} ReceiveRemoval(k: Key, v: Raw)
    ensures Receive(Only(k, v), Only(k, Nil)) == map[] && Receive(Only(k, v), map[]) == Only(k, v)
  {
  }

  lemma {:induction false} ReachesRemoved(hash: Hash, k: Key, v: Raw)
    requires !IsEmpty(v)
    ensures Reaches(hash, [Only(k, v)] + [Only(k, Nil)], map[k := 0], if hash(v) == 0 then Only(k, v) else map[], map[])
  {
    var h: History := map[k := hash(v)];
    ReachesFirst(hash, k, v);
    ReachesNext(hash, [Only(k, v)], Only(k, Nil), h, Only(k, v), Only(k, v));
    Removal(hash, h, k, v);
    ReceiveRemoval(k, v);
  }

  /** The client keeps a value with the hash zero: its removal is not sent. */
  lemma {:induction false} ZeroHashStays(hash: Hash, k: Key, v: Raw)
    requires !IsEmpty(v) && hash(v) == 0
    ensures var datas := [Only(k, v)] + [Only(k, Nil)];
      DeltaView(hash, datas) == Only(k, v) && FullView(datas) == map[]
  {
    ReachesRemoved(hash, k, v);
  }

  /** What the filter makes of a value with the hash zero after a removal. */
  lemma {:induction false} ZeroAfterRemoval(hash: Hash, h: History, k: Key, w: Raw)
    requires h == map[k := 0] && !IsEmpty(w) && hash(w) == 0
    ensures Receive(map[], Sent(hash, h, Only(k, w))) == map[] && Receive(map[], Only(k, w)) == Only(k, w)
  {
    assert DropEmpty(h, Only(k, w)) == Only(k, w);
    assert Kept(hash, h, Only(k, w)) == map[];
  }

  /** After a removal a value with the hash zero is not sent. */
  lemma {:induction false} ZeroHashNeverComes(hash: Hash, k: Key, v: Raw, w: Raw)
    requires !IsEmpty(v) && hash(v) != 0 && !IsEmpty(w) && hash(w) == 0
    ensures var datas := [Only(k, v)] + [Only(k, Nil)] + [Only(k, w)];
      DeltaView(hash, datas) == map[] && FullView(datas) == Only(k, w)
  {
    var h: History := map[k := 0];
    ReachesRemoved(hash, k, v);
    ReachesNext(hash, [Only(k, v)] + [Only(k, Nil)], Only(k, w), h, map[], map[]);
    ZeroAfterRemoval(hash, h, k, w);
  }

  /** A hash and two values as in the lemmas above. */
  const ONE_IS_ZERO: Hash := (v: Raw) => if v == Doc(Int(1)) then 0 else 1

  lemma {:induction false} ZeroHashRuns(k: Key)
    ensures var stays := [Only(k, Doc(Int(1)))] + [Only(k, Nil)];
      DeltaView(ONE_IS_ZERO, stays) == Only(k, Doc(Int(1))) && FullView(stays) == map[]
    ensures var missed := [Only(k, Doc(Int(2)))] + [Only(k, Nil)] + [Only(k, Doc(Int(1)))];
      DeltaView(ONE_IS_ZERO, missed) == map[] && FullView(missed) == Only(k, Doc(Int(1)))
  {
    ZeroHashStays(ONE_IS_ZERO, k, Doc(Int(1)));
    ZeroHashNeverComes(ONE_IS_ZERO, k, Doc(Int(2)), Doc(Int(1)));
  }
}
