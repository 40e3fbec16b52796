/** The ordered byte store under the queue, and what its entries look like by seq. */
module Stores {
  import opened Base
  import opened Keys
  import P = Protocol

  type ByteMap = map<Bytes, Bytes>

  type KeyValue = (Bytes, Bytes)

  datatype Op = Put(key: Bytes, value: Bytes) | Delete(key: Bytes)

  // ---- seeks ----

  lemma {:induction false} KeyExtremes(s: set<Bytes>) returns (least: Bytes, most: Bytes)
    requires s != {}
    ensures least in s && forall x :: x in s ==> AtMost(least, x)
    ensures most in s && forall x :: x in s ==> AtMost(x, most)
    decreases s
  {
    var x :| x in s;
    var rest := s - {x};
    if rest == {} {
      least, most := x, x;
      assert s == rest + {x};
    } else {
      var l, m := KeyExtremes(rest);
      least, most := if Less(x, l) then x else l, if Less(m, x) then x else m;
      forall y | y in s
        ensures AtMost(least, y) && AtMost(y, most)
      {
        Between(x, l, m, y);
        assert y == x || y in rest;
      }
    }
  }

  lemma Between(x: Bytes, l: Bytes, m: Bytes, y: Bytes)
    requires y == x || (AtMost(l, y) && AtMost(y, m))
    ensures AtMost(if Less(x, l) then x else l, y) && AtMost(y, if Less(m, x) then x else m)
  {
    LessTrichotomy(x, l);
    LessTrichotomy(x, m);
    if Less(x, l) && Less(l, y) {
      LessTransitive(x, l, y);
    }
    if Less(y, m) && Less(m, x) {
      LessTransitive(y, m, x);
    }
  }

  lemma KeysHaveExtremes(s: set<Bytes>)
    requires s != {}
    ensures exists k :: k in s && forall x :: x in s ==> AtMost(k, x)
    ensures exists k :: k in s && forall x :: x in s ==> AtMost(x, k)
    ensures forall a, b :: AtMost(a, b) && AtMost(b, a) ==> a == b
  {
    var _, _ := KeyExtremes(s);
    forall a, b | AtMost(a, b) && AtMost(b, a)
      ensures a == b
    {
      LessTrichotomy(a, b);
    }
  }

  function First(s: set<Bytes>): (k: Bytes)
    requires s != {}
    ensures k in s && forall x :: x in s ==> AtMost(k, x)
  {
    KeysHaveExtremes(s);
    var k :| k in s && forall x :: x in s ==> AtMost(k, x);
    k
  }

  function Last(s: set<Bytes>): (k: Bytes)
    requires s != {}
    ensures k in s && forall x :: x in s ==> AtMost(x, k)
  {
    KeysHaveExtremes(s);
    var k :| k in s && forall x :: x in s ==> AtMost(x, k);
    k
  }

  /** The smallest entry whose key is at least `from`. */
  function Seek(m: ByteMap, from: Bytes): (r: Option<KeyValue>)
    ensures r.None? ==> forall k :: k in m ==> !AtMost(from, k)
    ensures r.Some? ==> r.value.0 in m && AtMost(from, r.value.0) && m[r.value.0] == r.value.1
    ensures r.Some? ==> forall k :: k in m && AtMost(from, k) ==> AtMost(r.value.0, k)
  {
    var above := set k | k in m && AtMost(from, k);
    if above == {} then
      assert forall k :: k in m && AtMost(from, k) ==> k in above;
      None
    else
      assert forall k :: k in m && AtMost(from, k) ==> k in above;
      Some((First(above), m[First(above)]))
  }

  /** The greatest entry whose key is at most `upto`. */
  function SeekBack(m: ByteMap, upto: Bytes): (r: Option<KeyValue>)
    ensures r.None? ==> forall k :: k in m ==> !AtMost(k, upto)
    ensures r.Some? ==> r.value.0 in m && AtMost(r.value.0, upto) && m[r.value.0] == r.value.1
    ensures r.Some? ==> forall k :: k in m && AtMost(k, upto) ==> AtMost(k, r.value.0)
  {
    var below := set k | k in m && AtMost(k, upto);
    if below == {} then
      assert forall k :: k in m && AtMost(k, upto) ==> k in below;
      None
    else
      assert forall k :: k in m && AtMost(k, upto) ==> k in below;
      Some((Last(below), m[Last(below)]))
  }

  lemma LookupIsSeek(m: ByteMap, key: Bytes)
    ensures Lookup(m, key) == Hit(Seek(m, key), key)
  {
    var r := Seek(m, key);
    LessTrichotomy(key, key);
    if r.Some? && key in m {
      LessTrichotomy(key, r.value.0);
    }
  }

  /** The value when a seek lands on the very key. */
  function Hit(r: Option<KeyValue>, key: Bytes): Option<Bytes> {
    if r.Some? && r.value.0 == key then Some(r.value.1) else None
  }

  /** What a batch of writes does. */
  function ApplyOps(m: ByteMap, ops: seq<Op>): ByteMap {
    if ops == [] then m
    else
      var before := ApplyOps(m, ops[..|ops| - 1]);
      match ops[|ops| - 1]
      case Put(k, v) => before[k := v]
      case Delete(k) => before - {k}
  }

  /** What one operation leaves under its own key. */
  function Left(op: Op): Option<Bytes> {
    match op
    case Put(_, v) => Some(v)
    case Delete(_) => None
  }

  /** No operation from number `i` on touches `k`. */
  predicate NoneTouches(ops: seq<Op>, i: nat, k: Bytes) {
    forall j :: i <= j < |ops| ==> ops[j].key != k
  }

  /** Under each key a batch leaves what its last operation on that key says, or what was there. */
  lemma {:induction false} LastWins(m: ByteMap, ops: seq<Op>, k: Bytes, last: Option<nat>)
    requires last.None? ==> NoneTouches(ops, 0, k)
    requires last.Some? ==> last.value < |ops| && ops[last.value].key == k && NoneTouches(ops, last.value + 1, k)
    ensures Lookup(ApplyOps(m, ops), k) == if last.Some? then Left(ops[last.value]) else Lookup(m, k)
    decreases |ops|
  {
    if ops != [] {
      var n := |ops| - 1;
      var front := ops[..n];
      if last != Some(n) {
        assert ops[n].key != k;
        LastWins(m, front, k, last);
      }
    }
  }

  // ---- entries by seq ----

  /** The store holds nothing but the meta record and entries. */
  predicate Clean(m: ByteMap) {
    forall k :: k in m ==> k == META_KEY || IsEntry(k)
  }

  /** The stored entries by seq. */
  function Entries(m: ByteMap): (e: map<nat, Bytes>)
    ensures forall n :: n in e ==> n <= U64_MAX
  {
    var seqs := set k | k in m && IsEntry(k) :: SeqOf(k);
    SeqsMean(m);
    map n | n in seqs :: m[EntryKey(n)]
  }

  lemma SeqsMean(m: ByteMap)
    ensures var seqs := set k | k in m && IsEntry(k) :: SeqOf(k);
            && (forall n :: n in seqs ==> n <= U64_MAX && EntryKey(n) in m)
            && (forall n: nat :: n <= U64_MAX && EntryKey(n) in m ==> n in seqs)
  {
    var seqs := set k | k in m && IsEntry(k) :: SeqOf(k);
    forall k | k in m && IsEntry(k)
      ensures SeqOf(k) <= U64_MAX && EntryKey(SeqOf(k)) == k
    {
      SeqRoundTrip(k);
    }
    forall n: nat | n <= U64_MAX && EntryKey(n) in m
      ensures n in seqs
    {
      KeyRoundTrip(n);
      assert SeqOf(EntryKey(n)) in seqs;
    }
  }

  lemma EntriesMean(m: ByteMap)
    ensures forall n :: n in Entries(m) ==> n <= U64_MAX && EntryKey(n) in m && Entries(m)[n] == m[EntryKey(n)]
    ensures forall n: nat :: n <= U64_MAX && EntryKey(n) in m ==> n in Entries(m)
  {
    SeqsMean(m);
  }

  lemma KeyAtMost(a: nat, b: nat)
    requires a <= U64_MAX && b <= U64_MAX
    ensures AtMost(EntryKey(a), EntryKey(b)) <==> a <= b
  {
    KeyOrder(a, b);
    KeyRoundTrip(a);
    KeyRoundTrip(b);
  }

  /** A forward seek from an entry key finds the least seq from there on. */
  lemma SeekFindsLeast(m: ByteMap, c: nat)
    requires Clean(m) && c <= U64_MAX
    ensures var r, n := Seek(m, EntryKey(c)), LeastFrom(Entries(m).Keys, c);
            && (n.None? ==> r.None?)
            && (n.Some? ==> r == Some((EntryKey(n.value), Entries(m)[n.value])))
  {
    EntriesMean(m);
    var r := Seek(m, EntryKey(c));
    if r.Some? {
      var k := r.value.0;
      KeyBounds(c);
      LessTrichotomy(META_KEY, EntryKey(c));
      SeqRoundTrip(k);
      var n := SeqOf(k);
      KeyAtMost(c, n);
      forall q | q in Entries(m) && c <= q
        ensures n <= q
      {
        KeyAtMost(c, q);
        KeyAtMost(n, q);
      }
      LeastIs(Entries(m).Keys, c, n);
    } else {
      forall q | q in Entries(m)
        ensures q < c
      {
        KeyAtMost(c, q);
      }
      LeastNone(Entries(m).Keys, c);
    }
  }

  /** A forward seek from the entry prefix starts where a seek from entry 0 does. */
  lemma SeekFromLow(m: ByteMap)
    requires Clean(m)
    ensures Seek(m, ENTRY_LOW) == Seek(m, EntryKey(0))
  {
    var low, zero := Seek(m, ENTRY_LOW), Seek(m, EntryKey(0));
    forall k | k in m
      ensures AtMost(ENTRY_LOW, k) <==> AtMost(EntryKey(0), k)
    {
      KeyBounds(0);
      if IsEntry(k) {
        SeqRoundTrip(k);
        KeyBounds(SeqOf(k));
        KeyAtMost(0, SeqOf(k));
      } else {
        LessTrichotomy(META_KEY, ENTRY_LOW);
        LessTrichotomy(META_KEY, EntryKey(0));
      }
    }
    if low.Some? && zero.Some? {
      LessTrichotomy(low.value.0, zero.value.0);
    }
  }

  lemma EntrySeen(m: ByteMap, k: Bytes)
    requires k in m
    ensures IsEntry(k) ==> SeqOf(k) in Entries(m)
  {
    EntriesMean(m);
    if IsEntry(k) {
      SeqRoundTrip(k);
    }
  }

  lemma SeekBackEntry(m: ByteMap, n: nat)
    requires Clean(m) && n in Entries(m) && forall j :: j in Entries(m) ==> j <= n
    ensures SeekBack(m, ENTRY_HIGH) == Some((EntryKey(n), Entries(m)[n]))
  {
    hide Entries, Less, EntryKey, Pow256;
    EntriesMean(m);
    var r := SeekBack(m, ENTRY_HIGH);
    KeyBounds(n);
    var k := r.value.0;
    assert AtMost(EntryKey(n), k);
    LessTrichotomy(META_KEY, EntryKey(n));
    SeqRoundTrip(k);
    EntrySeen(m, k);
    KeyAtMost(n, SeqOf(k));
  }

  /** A backward seek from the highest key finds the greatest entry, or no entry. */
  lemma SeekBackFindsMost(m: ByteMap)
    requires Clean(m)
    ensures var r, e := SeekBack(m, ENTRY_HIGH), Entries(m);
            && (e == map[] ==> r.None? || r.value.0 == META_KEY)
            && (e != map[] ==> e.Keys != {} && r == Some((EntryKey(Max(e.Keys)), e[Max(e.Keys)])))
  {
    EntriesMean(m);
    var r, e := SeekBack(m, ENTRY_HIGH), Entries(m);
    if e != map[] {
      assert e.Keys != {};
      SeekBackEntry(m, Max(e.Keys));
    } else if r.Some? {
      EntrySeen(m, r.value.0);
    }
  }

  /** The entries are what the entry keys hold. */
  lemma EntriesAre(m: ByteMap, e: map<nat, Bytes>)
    requires forall n :: n in e ==> n <= U64_MAX
    requires forall n: nat :: n <= U64_MAX ==> Lookup(m, EntryKey(n)) == Lookup(e, n)
    ensures Entries(m) == e
  {
    EntriesMean(m);
    forall n: nat
      ensures n in Entries(m) <==> n in e
      ensures n in e ==> Entries(m)[n] == e[n]
    {
      if n <= U64_MAX {
        assert Lookup(m, EntryKey(n)) == Lookup(e, n);
      }
    }
  }

  /** Single writes by seq: a put and a delete do to the entries what they say, and keep the store clean. */
  lemma PutEntry(m: ByteMap, n: nat, v: Bytes)
    requires n <= U64_MAX
    ensures Entries(ApplyOps(m, [Put(EntryKey(n), v)])) == Entries(m)[n := v]
    ensures Clean(m) ==> Clean(ApplyOps(m, [Put(EntryKey(n), v)]))
    ensures Lookup(ApplyOps(m, [Put(EntryKey(n), v)]), META_KEY) == Lookup(m, META_KEY)
  {
    EntriesMean(m);
    KeyRoundTrip(n);
    KeysDistinct(n);
    OnePut(m, EntryKey(n), v);
    var m', e' := m[EntryKey(n) := v], Entries(m)[n := v];
    forall j: nat | j <= U64_MAX
      ensures Lookup(m', EntryKey(j)) == Lookup(e', j)
    {
      assert EntryKey(j) == EntryKey(n) ==> j == n;
    }
    EntriesAre(m', e');
  }

  lemma OnePut(m: ByteMap, k: Bytes, v: Bytes)
    ensures ApplyOps(m, [Put(k, v)]) == m[k := v] && ApplyOps(m, [Delete(k)]) == m - {k}
  {
  }

  lemma DeleteEntry(m: ByteMap, n: nat)
    requires n <= U64_MAX
    ensures Entries(ApplyOps(m, [Delete(EntryKey(n))])) == Entries(m) - {n}
    ensures Clean(m) ==> Clean(ApplyOps(m, [Delete(EntryKey(n))]))
    ensures Lookup(ApplyOps(m, [Delete(EntryKey(n))]), META_KEY) == Lookup(m, META_KEY)
  {
    EntriesMean(m);
    KeyRoundTrip(n);
    KeysDistinct(n);
    OnePut(m, EntryKey(n), []);
    var m', e' := m - {EntryKey(n)}, Entries(m) - {n};
    forall j: nat | j <= U64_MAX
      ensures Lookup(m', EntryKey(j)) == Lookup(e', j)
    {
      assert EntryKey(j) == EntryKey(n) ==> j == n;
    }
    EntriesAre(m', e');
  }

  lemma PutMeta(m: ByteMap, v: Bytes)
    ensures Entries(ApplyOps(m, [Put(META_KEY, v)])) == Entries(m)
    ensures Lookup(ApplyOps(m, [Put(META_KEY, v)]), META_KEY) == Some(v)
    ensures Clean(m) ==> Clean(ApplyOps(m, [Put(META_KEY, v)]))
  {
    EntriesMean(m);
    var m' := m[META_KEY := v];
    assert ApplyOps(m, [Put(META_KEY, v)]) == m';
    forall n: nat | n <= U64_MAX
      ensures EntryKey(n) != META_KEY
    {
      KeyRoundTrip(n);
    }
    EntriesMean(m');
    assert Entries(m').Keys == Entries(m).Keys;
  }

  lemma KeysDistinct(n: nat)
    requires n <= U64_MAX
    ensures forall j: nat :: j <= U64_MAX && EntryKey(j) == EntryKey(n) ==> j == n
  {
    KeyRoundTrip(n);
    forall j: nat | j <= U64_MAX && EntryKey(j) == EntryKey(n)
      ensures j == n
    {
      KeyRoundTrip(j);
    }
  }

  // ---- the in-memory store ----

  class MemStore {
    var contents: ByteMap

    constructor ()
      ensures contents == map[]
    {
      contents := map[];
    }

    method Get(key: Bytes) returns (r: Option<Bytes>)
      ensures r == Hit(Seek(contents, key), key)
    {
      r := if key in contents then Some(contents[key]) else None;
      LookupIsSeek(contents, key);
    }

    method Commit(ops: seq<Op>, durable: bool)
      modifies this
      ensures contents == ApplyOps(old(contents), ops)
    {
      var i := 0;
      while i < |ops|
        invariant i <= |ops|
        invariant contents == ApplyOps(old(contents), ops[..i])
      {
        match ops[i] {
          case Put(k, v) => contents := contents[k := v];
          case Delete(k) => contents := contents - {k};
        }
        assert ops[..i + 1][..i] == ops[..i];
        i := i + 1;
      }
      assert ops[..|ops|] == ops;
    }
  }

  /**
   The fault-injecting store: `live` is what the process sees, `synced` what is on disk; a
   durable commit syncs everything. `fails(n)` says whether commit number `n` fails, which it
   does without changing anything: any pattern, of which failing from a number on until told
   to stop is one.
   */
  class SharedMem {
    var live: ByteMap
    var synced: ByteMap
    var commits: nat
    const fails: nat -> bool

    constructor (fails: nat -> bool)
      ensures live == map[] && synced == map[] && commits == 0 && this.fails == fails
    {
      this.fails := fails;
      live, synced, commits := map[], map[], 0;
    }

    method Commit(ops: seq<Op>, durable: bool) returns (ok: bool)
      modifies this
      ensures commits == old(commits) + 1 && (ok <==> !fails(old(commits)))
      ensures live == if ok then ApplyOps(old(live), ops) else old(live)
      ensures synced == if ok && durable then live else old(synced)
    {
      var n := commits;
      commits := commits + 1;
      if fails(n) {
        return false;
      }
      var i := 0;
      while i < |ops|
        invariant i <= |ops| && synced == old(synced) && commits == old(commits) + 1
        invariant live == ApplyOps(old(live), ops[..i])
      {
        match ops[i] {
          case Put(k, v) => live := live[k := v];
          case Delete(k) => live := live - {k};
        }
        assert ops[..i + 1][..i] == ops[..i];
        i := i + 1;
      }
      assert ops[..|ops|] == ops;
      if durable {
        synced := live;
      }
      ok := true;
    }

    /** Power loss: drop everything not synced. */
    method Crash()
      modifies this`live
      ensures live == synced
    {
      live := synced;
    }
  }

  // ---- the fault store is one case of the adversarial disk ----

  function ValueOf(o: Option<P.Item>): Option<Bytes> {
    if o.Some? then Some(o.value.value) else None
  }

  /** `synced` is one of the states the disk may be in. */
  ghost predicate Models(live: ByteMap, synced: ByteMap, d: P.Disk) {
    && Entries(live) == P.Values(d.live)
    && forall k: nat :: MayHold(d, k, Lookup(Entries(synced), k))
  }

  ghost predicate MayHold(d: P.Disk, k: nat, v: Option<Bytes>) {
    exists o :: o in P.Candidates(d, k) && ValueOf(o) == v
  }

  lemma SyncedModels(m: ByteMap, d: P.Disk)
    requires Entries(m) == P.Values(d.live) && P.LagHolds(d)
    ensures Models(m, m, d)
  {
    forall k: nat
      ensures MayHold(d, k, Lookup(Entries(m), k))
    {
      assert Lookup(d.live, k) in P.Candidates(d, k);
    }
  }

  /** The disk may still be in the old state while a write is unsynced. */
  lemma StillModels(live: ByteMap, synced: ByteMap, d: P.Disk, live': ByteMap, d': P.Disk)
    requires Models(live, synced, d) && Entries(live') == P.Values(d'.live)
    requires forall k: nat :: P.Candidates(d, k) <= P.Candidates(d', k)
    ensures Models(live', synced, d')
  {
    forall k: nat
      ensures MayHold(d', k, Lookup(Entries(synced), k))
    {
      assert MayHold(d, k, Lookup(Entries(synced), k));
      var o :| o in P.Candidates(d, k) && ValueOf(o) == Lookup(Entries(synced), k);
      assert o in P.Candidates(d', k);
    }
  }

  /** A put of the fault store, synced or not, stays within the adversarial disk. */
  lemma PutModels(live: ByteMap, synced: ByteMap, d: P.Disk, k: nat, i: P.Item, durable: bool)
    requires Models(live, synced, d) && k <= U64_MAX && P.LagHolds(d)
    ensures var live' := ApplyOps(live, [Put(EntryKey(k), i.value)]);
            Models(live', if durable then live' else synced, P.Put(d, k, i, durable))
  {
    hide Entries, ApplyOps, EntryKey, Pow256;
    var live', d' := ApplyOps(live, [Put(EntryKey(k), i.value)]), P.Put(d, k, i, durable);
    PutEntry(live, k, i.value);
    assert Entries(live') == P.Values(d'.live);
    if durable {
      SyncedModels(live', d');
    } else {
      StillModels(live, synced, d, live', d');
    }
  }

  lemma EraseModels(live: ByteMap, synced: ByteMap, d: P.Disk, k: nat, durable: bool)
    requires Models(live, synced, d) && k <= U64_MAX && P.LagHolds(d)
    ensures var live' := ApplyOps(live, [Delete(EntryKey(k))]);
            Models(live', if durable then live' else synced, P.Erase(d, k, durable))
  {
    hide Entries, ApplyOps, EntryKey, Pow256;
    var live', d' := ApplyOps(live, [Delete(EntryKey(k))]), P.Erase(d, k, durable);
    DeleteEntry(live, k);
    assert Entries(live') == P.Values(d'.live);
    if durable {
      SyncedModels(live', d');
    } else {
      StillModels(live, synced, d, live', d');
    }
  }

  ghost function Pick(d: P.Disk, k: nat, v: Bytes): (o: P.Item)
    requires MayHold(d, k, Some(v))
    ensures Some(o) in P.Candidates(d, k) && o.value == v
  {
    var o :| o in P.Candidates(d, k) && ValueOf(o) == Some(v);
    o.value
  }

  /** The fault store's crash leaves each key in a state the adversarial disk allows. */
  lemma CrashModels(live: ByteMap, synced: ByteMap, d: P.Disk) returns (survivors: map<nat, P.Item>)
    requires Models(live, synced, d)
    ensures P.Values(survivors) == Entries(synced)
    ensures forall k: nat :: Lookup(survivors, k) in P.Candidates(d, k)
    ensures Models(synced, synced, P.Disk(survivors, map[]))
  {
    hide Entries;
    var e := Entries(synced);
    forall k: nat
      ensures MayHold(d, k, Lookup(e, k)) && (k in e ==> MayHold(d, k, Some(e[k])))
    {
      MayHoldSynced(live, synced, d, k);
    }
    survivors := map k | k in e :: Pick(d, k, e[k]);
    assert P.Values(survivors) == e;
    SyncedModels(synced, P.Disk(survivors, map[]));
    hide Models, P.Candidates;
    forall k: nat
      ensures Lookup(survivors, k) in P.Candidates(d, k)
    {
      PickOr(d, e, k);
    }
  }

  lemma PickOr(d: P.Disk, e: map<nat, Bytes>, k: nat)
    requires MayHold(d, k, Lookup(e, k))
    ensures k !in e ==> None in P.Candidates(d, k)
  {
  }

  lemma MayHoldSynced(live: ByteMap, synced: ByteMap, d: P.Disk, k: nat)
    requires Models(live, synced, d)
    ensures MayHold(d, k, Lookup(Entries(synced), k))
  {
  }
}
