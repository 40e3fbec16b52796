/** The queue's own code, one call at a time, over the byte store. */
module Queue {
  import opened Base
  import opened Keys
  import opened Stores
  import opened GroupLoop
  import P = Protocol

  const FORMAT_VERSION: byte := 1

  datatype Durability = Sync | Group | Unsynced

  datatype OpenError = StoreFailed | UnsupportedVersion(version: byte)

  datatype PushResult = Pushed | Full | Closed | Failed

  /** A reserved item. */
  datatype Reserved = Reserved(no: nat, value: Bytes)

  class Queue {
    const store: SharedMem
    const committer: Committer
    const cfg: P.Config
    var tail: nat
    var head: nat
    var ackedAbove: set<nat>
    var len: nat
    var bytes: nat
    var reserved: set<nat>
    var closed: bool

    /** The cursors and counters as one value. */
    ghost function View(): P.Inner
      reads this
    {
      P.Inner(tail, head, ackedAbove, len, bytes, reserved, closed)
    }

    ghost function Stored(): map<nat, Bytes>
      reads store
    {
      Entries(store.live)
    }

    /** The meta record. */
    ghost function Meta(): Option<Bytes>
      reads store
    {
      Lookup(store.live, META_KEY)
    }

    ghost predicate Valid()
      reads this, store, committer
    {
      && committer.store == store && committer.Idle()
      && Clean(store.live)
      && head <= tail <= U64_MAX
      && len == |Stored()| && bytes == SumTo(Stored(), tail)
      && (forall k :: k in Stored() ==> head <= k < tail && k !in ackedAbove)
      && (forall k :: k in ackedAbove ==> head < k < tail)
      && reserved <= Stored().Keys
    }

    constructor (store: SharedMem, cfg: P.Config, tail: nat, head: nat, len: nat, bytes: nat)
      ensures this.store == store && this.cfg == cfg
      ensures fresh(committer) && committer.store == store && committer.Idle()
      ensures View() == P.Inner(tail, head, {}, len, bytes, {}, false)
    {
      this.store, this.cfg := store, cfg;
      this.committer := new Committer(store);
      this.tail, this.head, this.len, this.bytes := tail, head, len, bytes;
      this.ackedAbove, this.reserved, this.closed := {}, {}, false;
    }

    // ---- open ----

    /** Check or write the format version, then derive cursors and counters from the keys. */
    static method Open(store: SharedMem, capacity: nat, maxBytes: nat, durability: Durability, durableAcks: bool)
      returns (r: Result<Queue, OpenError>)
      requires capacity > 0 && maxBytes > 0
      requires Clean(store.live) && forall k :: k in Entries(store.live) ==> k < U64_MAX
      modifies store
      ensures r.Ok? ==> fresh(r.value) && fresh(r.value.committer) && r.value.store == store && r.value.Valid()
      ensures r.Ok? ==> r.value.View() == P.Recovered(Entries(old(store.live)))
      ensures r.Ok? ==> Derived(Entries(old(store.live)), r.value.View())
      ensures r.Ok? ==> r.value.cfg.capacity == capacity && r.value.cfg.maxBytes == maxBytes
                        && r.value.cfg.durable == (durability != Unsynced)
                        && r.value.cfg.ackDurable == (durability != Unsynced && durableAcks)
                        && r.value.cfg.group == (durability == Group)
      // a store with a meta record: only its first byte matters, and nothing is written
      ensures META_KEY in old(store.live) ==>
                var meta := old(store.live[META_KEY]); var version := if meta == [] then 0 else meta[0];
                && (r.Ok? <==> version == 1) && (r.Err? ==> r.error == UnsupportedVersion(version))
                && store.live == old(store.live) && store.synced == old(store.synced) && store.commits == old(store.commits)
      // a store without one: version 1 is written, or the commit fails and nothing changes
      ensures META_KEY !in old(store.live) ==>
                && (r.Ok? <==> !store.fails(old(store.commits)))
                && (r.Ok? ==> store.live == old(store.live)[META_KEY := [1]])
                && (r.Err? ==> r.error == StoreFailed && store.live == old(store.live))
                && store.synced == if r.Ok? && durability != Unsynced then store.live else old(store.synced)
      ensures Entries(store.live) == Entries(old(store.live)) && Clean(store.live)
    {
      var durable := durability != Unsynced;
      var cfg := P.Config(capacity, maxBytes, durable, durable && durableAcks, durability == Group);
      if META_KEY in store.live {
        var version := Version(store.live[META_KEY]);
        if version != FORMAT_VERSION {
          return Err(UnsupportedVersion(version));
        }
      } else {
        PutMeta(store.live, [FORMAT_VERSION]);
        OnePut(store.live, META_KEY, [FORMAT_VERSION]);
        var ok := store.Commit([Put(META_KEY, [FORMAT_VERSION])], durable);
        if !ok {
          return Err(StoreFailed);
        }
      }
      var q := Scan(store, cfg);
      DerivedIs(Entries(store.live));
      r := Ok(q);
    }

    /** The recovery scan. */
    static method Scan(store: SharedMem, cfg: P.Config) returns (q: Queue)
      requires Clean(store.live) && forall k :: k in Entries(store.live) ==> k < U64_MAX
      ensures fresh(q) && fresh(q.committer) && q.store == store && q.cfg == cfg && q.Valid()
      ensures q.View() == P.Recovered(Entries(store.live))
    {
      hide AtMost, Less, EntryKey, SeqOf, Pow256, Entries, Seek, SeekBack, Counted;
      ghost var e := Entries(store.live);
      var tail: nat := 0;
      var top := SeekBack(store.live, ENTRY_HIGH);
      if top.Some? && IsEntry(top.value.0) {
        tail := SeqOf(top.value.0) + 1;
      }
      TailIs(store.live, tail);

      var len: nat, bytes: nat, head: nat := 0, 0, tail;
      var cursor := ENTRY_LOW;
      ghost var c := 0;
      ScanStarts(store.live, tail);
      while true
        invariant c <= tail <= U64_MAX
        invariant Seek(store.live, cursor) == Seek(store.live, EntryKey(c))
        invariant Counted(e, c, tail, len, bytes, head)
        decreases tail - c
      {
        var next := Seek(store.live, cursor);
        if next.None? || !IsEntry(next.value.0) {
          break;
        }
        var (key, value) := next.value;
        OneMore(store.live, c, tail, len, bytes, head);
        if len == 0 {
          head := SeqOf(key);
        }
        len := len + 1;
        bytes := bytes + |value|;
        cursor := EntryKey(SeqOf(key) + 1);
        c := SeqOf(key) + 1;
      }
      NoMoreEntries(store.live, c);
      CountedAll(store.live, c, tail, len, bytes, head);
      q := new Queue(store, cfg, tail, head, len, bytes);
    }

    /** A store opened for the first time opens again, under any settings. */
    static method OpenTwice(store: SharedMem, capacity: nat, maxBytes: nat, durability: Durability, durableAcks: bool,
                            capacity2: nat, maxBytes2: nat, durability2: Durability, durableAcks2: bool)
      returns (first: Result<Queue, OpenError>, second: Result<Queue, OpenError>)
      requires capacity > 0 && maxBytes > 0 && capacity2 > 0 && maxBytes2 > 0
      requires Clean(store.live) && forall k :: k in Entries(store.live) ==> k < U64_MAX
      modifies store
      ensures first.Ok? ==> second.Ok? && second.value.View() == first.value.View()
      ensures Entries(store.live) == Entries(old(store.live))
    {
      first := Open(store, capacity, maxBytes, durability, durableAcks);
      second := Open(store, capacity2, maxBytes2, durability2, durableAcks2);
    }

    // ---- push ----

    /** The store commit of a claimed entry, alone or through group commit. */
    method CommitEntry(k: nat, value: Bytes) returns (ok: bool)
      requires k <= U64_MAX && Clean(store.live) && committer.store == store && committer.Idle()
      modifies store, committer
      ensures Clean(store.live) && committer.Idle()
      ensures Stored() == if ok then old(Stored())[k := value] else old(Stored())
      ensures ok <==> !store.fails(old(store.commits)) || (cfg.group && !store.fails(old(store.commits) + 1))
      ensures store.synced == if ok && (cfg.durable || cfg.group) then store.live else old(store.synced)
      ensures Meta() == old(Meta())
    {
      hide Entries, EntryKey, ApplyOps, Pow256, Clean, Lead, Flush, Serves, Promised, SeqsDiffer, Served, Rounds;
      PutEntry(store.live, k, value);
      if cfg.group {
        AloneInGroup(committer.State(), k, value);
        ok := committer.GroupCommit(k, value, []);
        assert committer.done == map[];
      } else {
        ok := store.Commit([Put(EntryKey(k), value)], cfg.durable);
      }
    }

    /** Everything but `Valid`'s account of the counters. */
    ghost predicate Ready()
      reads this, store, committer
    {
      Clean(store.live) && committer.store == store && committer.Idle()
    }

    /** Commit a claimed entry; on failure, give back the slot. */
    method Write(k: nat, value: Bytes) returns (ok: bool)
      requires Ready() && k <= U64_MAX && len >= 1 && bytes >= |value|
      modifies `len, `bytes, store, committer
      ensures Ready()
      ensures Stored() == if ok then old(Stored())[k := value] else old(Stored())
      ensures len == (if ok then old(len) else old(len) - 1) && bytes == (if ok then old(bytes) else old(bytes) - |value|)
      ensures ok <==> !store.fails(old(store.commits)) || (cfg.group && !store.fails(old(store.commits) + 1))
      ensures store.synced == if ok && (cfg.durable || cfg.group) then store.live else old(store.synced)
      ensures Meta() == old(Meta())
    {
      hide Entries, Clean;
      ok := CommitEntry(k, value);
      if !ok {
        len := len - 1;
        bytes := bytes - |value|;
      }
    }

    /** `try_push`; `push` does the same once the test passes. */
    method TryPush(value: Bytes) returns (r: PushResult)
      requires Valid() && tail < U64_MAX
      modifies this, store, committer
      ensures Valid()
      ensures r == Closed <==> old(closed)
      ensures r == Full <==> !old(closed) && !(old(len) < cfg.capacity
                                                && (old(len) == 0 || cfg.maxBytes >= USIZE_MAX || old(bytes) + |value| <= cfg.maxBytes))
      ensures r == Pushed ==> Stored() == old(Stored())[old(tail) := value]
      ensures r == Pushed ==>
                View() == P.Inner(old(tail) + 1, old(head), old(ackedAbove), old(len) + 1, old(bytes) + |value|, old(reserved), old(closed))
      ensures r != Pushed ==> Stored() == old(Stored())
      ensures r == Failed ==> View() == old(View()).(tail := old(tail) + 1)
      ensures r == Closed || r == Full ==> View() == old(View())
      ensures r == Pushed ==> !store.fails(old(store.commits)) || (cfg.group && !store.fails(old(store.commits) + 1))
      ensures r == Failed ==> store.fails(old(store.commits)) && (cfg.group ==> store.fails(old(store.commits) + 1))
      ensures store.synced == if r == Pushed && (cfg.durable || cfg.group) then store.live else old(store.synced)
      ensures Meta() == old(Meta())
    {
      hide Entries, Clean, P.Admits, SumTo;
      if closed {
        return Closed;
      }
      P.AdmitsMeans(cfg, len, bytes, |value|);
      if !P.Admits(cfg, len, bytes, |value|) {
        return Full;
      }
      ghost var e := Stored();
      OnePushed(e, tail, value);
      var k := tail;
      tail := tail + 1;
      len := len + 1;
      bytes := bytes + |value|;
      var ok := Write(k, value);
      r := if ok then Pushed else Failed;
    }

    method Close()
      requires Valid()
      modifies this
      ensures Valid() && View() == old(View()).(closed := true)
    {
      closed := true;
    }

    // ---- reserve ----

    /** The scan: the least entry not reserved, found from `head`, is the least of all. */
    method Reserve() returns (r: Option<Reserved>)
      requires Valid()
      modifies this
      ensures Valid()
      ensures var found := LeastFrom(Stored().Keys - old(reserved), 0);
              && (found.None? ==> r.None? && View() == old(View()))
              && (found.Some? ==> r == Some(Reserved(found.value, Stored()[found.value]))
                                  && View() == old(View()).(reserved := old(reserved) + {found.value}))
    {
      hide AtMost, Less, EntryKey, SeqOf, Pow256, Entries, Seek;
      ghost var c: nat := head;
      var cursor := EntryKey(head);
      while true
        invariant c <= tail <= U64_MAX && cursor == EntryKey(c) && Valid()
        invariant View() == old(View())
        invariant forall k :: k in Stored() && k !in reserved ==> c <= k
        decreases tail - c
      {
        SeekFindsLeast(store.live, c);
        var next := Seek(store.live, cursor);
        if next.None? || !IsEntry(next.value.0) {
          NoMoreEntries(store.live, c);
          LeastNone(Stored().Keys - reserved, 0);
          return None;
        }
        var (key, value) := next.value;
        FoundIs(store.live, c);
        var k := SeqOf(key);
        if k !in reserved {
          LeastIs(Stored().Keys - reserved, 0, k);
          reserved := reserved + {k};
          return Some(Reserved(k, value));
        }
        cursor := EntryKey(k + 1);
        c := k + 1;
      }
    }

    // ---- ack and nack ----

    /** `ack`: delete, settle the accounting, and move `head` past the contiguous acked run. */
    method Ack(g: Reserved) returns (ok: bool)
      requires Valid() && g.no in reserved && Stored()[g.no] == g.value
      modifies this, store
      ensures Valid()
      ensures ok ==> Stored() == old(Stored()) - {g.no} && View() == P.AfterAck(old(View()), g.no, |g.value|)
      ensures ok ==> len == old(len) - 1 && bytes == old(bytes) - |g.value| && reserved == old(reserved) - {g.no}
      ensures ok ==> tail == old(tail) && closed == old(closed)
      ensures ok ==> forall k: nat :: k < head || k in ackedAbove <==> k < old(head) || k in old(ackedAbove) || k == g.no
      ensures !ok ==> Stored() == old(Stored()) && View() == old(View()).(reserved := old(reserved) - {g.no})
      ensures ok <==> !store.fails(old(store.commits))
      ensures store.synced == if ok && cfg.ackDurable then store.live else old(store.synced)
      ensures Meta() == old(Meta())
    {
      hide Entries, EntryKey, ApplyOps, Pow256;
      ghost var e := Stored();
      DeleteEntry(store.live, g.no);
      ok := store.Commit([Delete(EntryKey(g.no))], cfg.ackDurable);
      if !ok {
        reserved := reserved - {g.no};
        return;
      }
      AckFits(e, View(), g.no);
      P.AckedAre(View(), g.no, |g.value|);
      Settle(g);
    }

    /** The part of `ack` under the lock. */
    method Settle(g: Reserved)
      requires len >= 1 && bytes >= |g.value|
      modifies this
      ensures View() == P.AfterAck(old(View()), g.no, |g.value|)
    {
      reserved := reserved - {g.no};
      len := len - 1;
      bytes := bytes - |g.value|;
      if g.no == head {
        var next: nat := head + 1;
        while next in ackedAbove
          invariant P.Jump(next, ackedAbove) == P.Jump(old(head) + 1, old(ackedAbove))
          invariant View() == P.Inner(old(tail), old(head), ackedAbove, old(len) - 1, old(bytes) - |g.value|,
                                      old(reserved) - {g.no}, old(closed))
          decreases ackedAbove
        {
          ackedAbove := ackedAbove - {next};
          next := next + 1;
        }
        head := next;
      } else {
        ackedAbove := ackedAbove + {g.no};
      }
    }

    /** `nack` and drop: the item goes back. */
    method Release(g: Reserved)
      requires Valid() && g.no in reserved
      modifies this
      ensures Valid() && View() == old(View()).(reserved := old(reserved) - {g.no})
    {
      reserved := reserved - {g.no};
    }

    // ---- draining ----

    /**
     Reserve and ack until nothing is left: every stored item comes out exactly once, with
     its own bytes, in strictly ascending order, and the queue ends empty.
     */
    method Drain() returns (out: seq<Reserved>)
      requires Valid() && reserved == {} && (forall n :: !store.fails(n))
      modifies this, store
      ensures Valid() && Stored() == map[] && len == 0 && bytes == 0 && Meta() == old(Meta())
      ensures forall i, j :: 0 <= i < j < |out| ==> out[i].no < out[j].no
      ensures forall i :: 0 <= i < |out| ==> Lookup(old(Stored()), out[i].no) == Some(out[i].value)
      ensures forall k :: k in old(Stored()) ==> Reserved(k, old(Stored())[k]) in out
    {
      hide Entries, Clean, SumTo, Delivered;
      out := [];
      ghost var all := Stored();
      NoneDelivered(all);
      while true
        invariant Valid() && reserved == {} && (forall n :: !store.fails(n))
        invariant Delivered(all, Stored(), out) && Meta() == old(Meta())
        decreases |Stored()|
      {
        ghost var left := Stored();
        var item := DeliverOne();
        if item.None? {
          break;
        }
        DeliverNext(all, left, out, item.value);
        MapRemoveSize(left, item.value.no);
        out := out + [item.value];
      }
      AllDelivered(all, out);
      SumToEmpty(tail);
    }

    /** One round: reserve the oldest item and ack it. */
    method DeliverOne() returns (item: Option<Reserved>)
      requires Valid() && reserved == {} && (forall n :: !store.fails(n))
      modifies this, store
      ensures Valid() && reserved == {} && (forall n :: !store.fails(n)) && Meta() == old(Meta())
      ensures item.None? ==> Stored() == map[] && old(Stored()) == map[]
      ensures item.Some? ==> Lookup(old(Stored()), item.value.no) == Some(item.value.value)
                             && (forall k :: k in old(Stored()) ==> item.value.no <= k)
                             && Stored() == old(Stored()) - {item.value.no}
    {
      hide Entries, Clean, SumTo;
      item := Reserve();
      assert Stored() == old(Stored());
      assert Stored().Keys - {} == Stored().Keys;
      if item.Some? {
        var ok := Ack(item.value);
      } else {
        assert Stored().Keys == {};
      }
    }
  }

  /** Cursors and counters as the entries alone give them. */
  ghost predicate Derived(e: map<nat, Bytes>, q: P.Inner) {
    && q.len == |e| && q.bytes == SumTo(e, q.tail)
    && q.ackedAbove == {} && q.reserved == {} && !q.closed
    && if e.Keys == {} then q.head == q.tail == 0
       else q.head == Min(e.Keys) && q.tail == Max(e.Keys) + 1
  }

  lemma DerivedIs(e: map<nat, Bytes>)
    ensures Derived(e, P.Recovered(e))
  {
    assert e == map[] <==> e.Keys == {};
  }

  function Version(meta: Bytes): byte {
    if meta == [] then 0 else meta[0]
  }

  ghost function Below(e: map<nat, Bytes>, c: nat): set<nat> {
    set k | k in e && k < c
  }

  /** `open`'s tail is one past the greatest entry, or 0. */
  lemma TailIs(m: ByteMap, tail: nat)
    requires Clean(m)
    requires var top := SeekBack(m, ENTRY_HIGH);
             tail == if top.Some? && IsEntry(top.value.0) then SeqOf(top.value.0) + 1 else 0
    ensures tail == P.Recovered(Entries(m)).tail
  {
    SeekBackFindsMost(m);
    var e := Entries(m);
    if e != map[] {
      KeyRoundTrip(Max(e.Keys));
    } else {
      KeyBounds(0);
    }
  }

  /** What the scan has derived from the entries below `c`. */
  ghost predicate Counted(e: map<nat, Bytes>, c: nat, tail: nat, len: nat, bytes: nat, head: nat) {
    && tail == P.Recovered(e).tail
    && len == |Below(e, c)| && bytes == SumTo(e, c)
    && head == (if Below(e, c) == {} then tail else Min(Below(e, c)))
  }

  lemma ScanStarts(m: ByteMap, tail: nat)
    requires Clean(m) && tail == P.Recovered(Entries(m)).tail
    requires forall k :: k in Entries(m) ==> k < U64_MAX
    ensures tail <= U64_MAX && Seek(m, ENTRY_LOW) == Seek(m, EntryKey(0)) && Counted(Entries(m), 0, tail, 0, 0, tail)
  {
    SeekFromLow(m);
    SumToEmpty(0);
    assert Below(Entries(m), 0) == {};
  }

  /** The scan moves over the next entry. */
  lemma CountNext(e: map<nat, Bytes>, c: nat, n: nat, tail: nat, len: nat, bytes: nat, head: nat)
    requires Counted(e, c, tail, len, bytes, head) && LeastFrom(e.Keys, c) == Some(n)
    ensures n < tail
    ensures Counted(e, n + 1, tail, len + 1, bytes + |e[n]|, if len == 0 then n else head)
  {
    assert Below(e, n + 1) == Below(e, c) + {n};
    SumGap(e, c, n);
    assert len == 0 <==> Below(e, c) == {};
    assert e != map[];
  }

  /** The entry a seek from `c` finds is counted next. */
  lemma OneMore(m: ByteMap, c: nat, tail: nat, len: nat, bytes: nat, head: nat)
    requires Clean(m) && c <= tail <= U64_MAX && Counted(Entries(m), c, tail, len, bytes, head)
    requires var next := Seek(m, EntryKey(c)); next.Some? && IsEntry(next.value.0)
    ensures var (key, value) := Seek(m, EntryKey(c)).value;
            var n := SeqOf(key);
            c <= n < tail && Counted(Entries(m), n + 1, tail, len + 1, bytes + |value|, if len == 0 then n else head)
  {
    hide AtMost, Less, EntryKey, SeqOf, Pow256, Entries, Seek, Counted, LeastFrom;
    SeekFindsLeast(m, c);
    var n := LeastFrom(Entries(m).Keys, c).value;
    KeyRoundTrip(n);
    CountNext(Entries(m), c, n, tail, len, bytes, head);
  }

  lemma {:induction false} SumGap(e: map<nat, Bytes>, c: nat, n: nat)
    requires c <= n && forall k :: c <= k < n ==> k !in e
    ensures SumTo(e, n) == SumTo(e, c)
  {
    if c < n {
      SumGap(e, c, n - 1);
    }
  }

  lemma NoMoreEntries(m: ByteMap, c: nat)
    requires Clean(m) && c <= U64_MAX
    requires Seek(m, EntryKey(c)).None? || !IsEntry(Seek(m, EntryKey(c)).value.0)
    ensures LeastFrom(Entries(m).Keys, c) == None
  {
    hide AtMost, Less, EntryKey, SeqOf, Pow256, Seek, Entries, LeastFrom;
    SeekFindsLeast(m, c);
    forall n: nat | n <= U64_MAX
      ensures IsEntry(EntryKey(n))
    {
      KeyRoundTrip(n);
    }
  }

  /** Once no entry is left from `c` on, everything has been counted. */
  lemma CountedAll(m: ByteMap, c: nat, tail: nat, len: nat, bytes: nat, head: nat)
    requires Counted(Entries(m), c, tail, len, bytes, head) && LeastFrom(Entries(m).Keys, c) == None && c <= tail
    ensures P.Inner(tail, head, {}, len, bytes, {}, false) == P.Recovered(Entries(m))
    ensures len == |Entries(m)| && bytes == SumTo(Entries(m), tail)
    ensures forall k :: k in Entries(m) ==> head <= k < tail
  {
    var e := Entries(m);
    assert Below(e, c) == e.Keys;
    SumGap(e, c, tail);
    assert e == map[] <==> e.Keys == {};
  }

  lemma OnePushed(e: map<nat, Bytes>, k: nat, v: Bytes)
    requires k !in e
    ensures |e[k := v]| == |e| + 1 && SumTo(e[k := v], k + 1) == SumTo(e, k) + |v| && SumTo(e, k + 1) == SumTo(e, k)
  {
    SumToAdd(e, k, v, k + 1);
  }

  /** A caller alone in group commit: one batch of its own entry, and one retry if that fails. */
  lemma AloneInGroup(s: Shelf, k: nat, v: Bytes)
    requires k <= U64_MAX
    ensures var (shelf, outcomes) := Lead(s, map[], [(k, v)], []);
            var told := Lookup(outcomes, k) == Some(true);
            var s2 := if told then shelf else Flush(shelf, [(k, v)]);
            var ok := !s.fails(s.commits) || !s.fails(s.commits + 1);
            var live := ApplyOps(s.live, [Put(EntryKey(k), v)]);
            && outcomes - {k} == map[] && (ok <==> told || Succeeds(shelf))
            && s2.live == (if ok then live else s.live) && s2.synced == (if ok then live else s.synced)
  {
    hide ApplyOps, EntryKey;
    SinglePut(k, v);
    OutcomeOfOne(k, v, Succeeds(s));
    var one := map[k := Succeeds(s)];
    assert Lead(s, map[], [(k, v)], []) == (Flush(s, [(k, v)]), one);
    assert one - {k} == map[];
  }

  /** A seek from entry `c` finds the least entry from there on, with its bytes. */
  lemma FoundIs(m: ByteMap, c: nat)
    requires Clean(m) && c <= U64_MAX
    requires var next := Seek(m, EntryKey(c)); next.Some? && IsEntry(next.value.0)
    ensures var (key, value) := Seek(m, EntryKey(c)).value;
            var k := SeqOf(key);
            && LeastFrom(Entries(m).Keys, c) == Some(k) && k in Entries(m) && Entries(m)[k] == value && c <= k
            && forall j :: j in Entries(m) && c <= j ==> k <= j
  {
    SeekFindsLeast(m, c);
    KeyRoundTrip(LeastFrom(Entries(m).Keys, c).value);
  }

  /** What `out` has delivered of `all` when `left` remains. */
  ghost predicate Delivered(all: map<nat, Bytes>, left: map<nat, Bytes>, out: seq<Reserved>) {
    && (forall i, j :: 0 <= i < j < |out| ==> out[i].no < out[j].no)
    && (forall i, k :: 0 <= i < |out| && k in left ==> out[i].no < k)
    && (forall i :: 0 <= i < |out| ==> Lookup(all, out[i].no) == Some(out[i].value))
    && (forall k :: k in left ==> Lookup(all, k) == Some(left[k]))
    && (forall k :: k in all ==> k in left || Reserved(k, all[k]) in out)
  }

  lemma NoneDelivered(all: map<nat, Bytes>)
    ensures Delivered(all, all, [])
  {
  }

  lemma AllDelivered(all: map<nat, Bytes>, out: seq<Reserved>)
    requires Delivered(all, map[], out)
    ensures forall i, j :: 0 <= i < j < |out| ==> out[i].no < out[j].no
    ensures forall i :: 0 <= i < |out| ==> Lookup(all, out[i].no) == Some(out[i].value)
    ensures forall k :: k in all ==> Reserved(k, all[k]) in out
  {
  }

  lemma DeliverNext(all: map<nat, Bytes>, left: map<nat, Bytes>, out: seq<Reserved>, item: Reserved)
    requires Delivered(all, left, out) && Lookup(left, item.no) == Some(item.value)
    requires forall k :: k in left ==> item.no <= k
    ensures Delivered(all, left - {item.no}, out + [item])
  {
  }

  /** An acked entry can be settled, and the cursors still fit what is left. */
  lemma AckFits(e: map<nat, Bytes>, q: P.Inner, k: nat)
    requires k in e && k < q.tail && q.len == |e| && q.bytes == SumTo(e, q.tail)
    requires q.head <= q.tail
    requires (forall j :: j in e ==> q.head <= j < q.tail && j !in q.ackedAbove)
    requires (forall j :: j in q.ackedAbove ==> q.head < j < q.tail)
    ensures 1 <= q.len && |e[k]| <= q.bytes
    ensures var q' := P.AfterAck(q, k, |e[k]|); var e' := e - {k};
            && q'.head <= q'.tail && q'.len == |e'| && q'.bytes == SumTo(e', q'.tail)
            && (forall j :: j in e' ==> q'.head <= j < q'.tail && j !in q'.ackedAbove)
            && (forall j :: j in q'.ackedAbove ==> q'.head < j < q'.tail)
  {
    MapRemoveSize(e, k);
    SumToRemove(e, k, q.tail);
    if k == q.head {
      P.JumpMeans(k + 1, q.ackedAbove);
      var r := P.Jump(k + 1, q.ackedAbove);
      if r.0 > k + 1 {
        assert r.0 - 1 in q.ackedAbove;
      }
      forall j | j in e && j != k
        ensures r.0 <= j
      {
        assert k + 1 <= j;
      }
    }
  }
}
