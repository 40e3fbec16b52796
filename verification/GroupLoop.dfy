/** The group-commit leader's loop, as code, with the other callers' arrivals given as a script. */
module GroupLoop {
  import opened Base
  import opened Keys
  import opened Stores

  type Waiter = (nat, Bytes)

  /** The fault store's fields as one value. */
  datatype Shelf = Shelf(live: ByteMap, synced: ByteMap, commits: nat, fails: nat -> bool)

  function PutOps(batch: seq<Waiter>): (ops: seq<Op>)
    requires InRange(batch)
    ensures |ops| == |batch|
  {
    seq(|batch|, i requires 0 <= i < |batch| => Put(EntryKey(batch[i].0), batch[i].1))
  }

  predicate InRange(batch: seq<Waiter>) {
    forall i :: 0 <= i < |batch| ==> batch[i].0 <= U64_MAX
  }

  function Numbers(batch: seq<Waiter>): set<nat> {
    set i | 0 <= i < |batch| :: batch[i].0
  }

  predicate SeqsDiffer(batch: seq<Waiter>) {
    forall i, j :: 0 <= i < j < |batch| ==> batch[i].0 != batch[j].0
  }

  function Succeeds(s: Shelf): bool {
    !s.fails(s.commits)
  }

  /** One durable commit of a batch. */
  function Flush(s: Shelf, batch: seq<Waiter>): Shelf
    requires InRange(batch)
  {
    if Succeeds(s) then
      var live := ApplyOps(s.live, PutOps(batch));
      Shelf(live, live, s.commits + 1, s.fails)
    else
      s.(commits := s.commits + 1)
  }

  function Outcomes(done: map<nat, bool>, batch: seq<Waiter>, ok: bool): map<nat, bool> {
    map k | k in done.Keys + Numbers(batch) :: if k in Numbers(batch) then ok else done[k]
  }

  /** `arrivals[i]` joins while the i-th batch is being committed; the leader leaves when nobody did. */
  function Next(arrivals: seq<seq<Waiter>>): seq<Waiter> {
    if arrivals == [] then [] else arrivals[0]
  }

  function Rest(arrivals: seq<seq<Waiter>>): seq<seq<Waiter>> {
    if arrivals == [] then [] else arrivals[1..]
  }

  /** Everyone whose entry the leader flushes. */
  function Served(batch: seq<Waiter>, arrivals: seq<seq<Waiter>>): seq<Waiter>
    decreases |arrivals|
  {
    if Next(arrivals) == [] then batch else batch + Served(Next(arrivals), Rest(arrivals))
  }

  predicate AllInRange(arrivals: seq<seq<Waiter>>) {
    forall i :: 0 <= i < |arrivals| ==> InRange(arrivals[i])
  }

  function Lead(s: Shelf, done: map<nat, bool>, batch: seq<Waiter>, arrivals: seq<seq<Waiter>>): (Shelf, map<nat, bool>)
    requires InRange(batch) && AllInRange(arrivals)
    decreases |arrivals|
  {
    var s', done' := Flush(s, batch), Outcomes(done, batch, Succeeds(s));
    if Next(arrivals) == [] then (s', done') else Lead(s', done', Next(arrivals), Rest(arrivals))
  }

  // ---- what a batch does to the entries ----

  /** `e'` is `e` with every entry of the batch put. */
  ghost predicate BatchPut(e: map<nat, Bytes>, e': map<nat, Bytes>, batch: seq<Waiter>) {
    && (forall i :: 0 <= i < |batch| ==> Lookup(e', batch[i].0) == Some(batch[i].1))
    && (forall k: nat :: k !in Numbers(batch) ==> Lookup(e', k) == Lookup(e, k))
  }

  lemma OneMorePut(e: map<nat, Bytes>, e': map<nat, Bytes>, batch: seq<Waiter>)
    requires batch != [] && SeqsDiffer(batch) && BatchPut(e, e', batch[..|batch| - 1])
    ensures var last := batch[|batch| - 1]; BatchPut(e, e'[last.0 := last.1], batch)
  {
    var front, last := batch[..|batch| - 1], batch[|batch| - 1];
    forall k: nat
      ensures k in Numbers(batch) <==> k in Numbers(front) || k == last.0
    {
      if k in Numbers(front) {
        var i :| 0 <= i < |front| && front[i].0 == k;
        assert batch[i].0 == k;
      }
      assert batch[|batch| - 1].0 in Numbers(batch);
    }
  }

  lemma {:induction false} BatchEntries(m: ByteMap, batch: seq<Waiter>)
    requires InRange(batch) && SeqsDiffer(batch)
    ensures BatchPut(Entries(m), Entries(ApplyOps(m, PutOps(batch))), batch)
    ensures Clean(m) ==> Clean(ApplyOps(m, PutOps(batch)))
    ensures Lookup(ApplyOps(m, PutOps(batch)), META_KEY) == Lookup(m, META_KEY)
    decreases |batch|
  {
    if batch != [] {
      hide Entries, EntryKey, Pow256, BatchPut;
      var front, last := batch[..|batch| - 1], batch[|batch| - 1];
      BatchEntries(m, front);
      LastPut(m, batch);
      var before := ApplyOps(m, PutOps(front));
      PutEntry(before, last.0, last.1);
      OnePut(before, EntryKey(last.0), last.1);
      KeyBounds(last.0);
      KeyRoundTrip(last.0);
      OneMorePut(Entries(m), Entries(before), batch);
    }
  }

  lemma LastPut(m: ByteMap, batch: seq<Waiter>)
    requires InRange(batch) && batch != []
    ensures var front, last := batch[..|batch| - 1], batch[|batch| - 1];
            ApplyOps(m, PutOps(batch)) == ApplyOps(m, PutOps(front))[EntryKey(last.0) := last.1]
  {
    hide EntryKey;
    assert PutOps(batch)[..|batch| - 1] == PutOps(batch[..|batch| - 1]);
  }

  /** What the leader's loop means for every caller: its outcome says whether its own bytes are stored. */
  ghost predicate Told(e: map<nat, Bytes>, s': Shelf, done': map<nat, bool>, w: Waiter) {
    && w.0 in done'
    && (done'[w.0] ==> Lookup(Entries(s'.live), w.0) == Some(w.1))
    && (!done'[w.0] ==> Lookup(Entries(s'.live), w.0) == Lookup(e, w.0))
  }

  lemma {:induction false} LeadTells(s: Shelf, done: map<nat, bool>, batch: seq<Waiter>, arrivals: seq<seq<Waiter>>)
    requires InRange(batch) && AllInRange(arrivals) && SeqsDiffer(Served(batch, arrivals))
    ensures var (s', done') := Lead(s, done, batch, arrivals);
            && (forall w :: w in Served(batch, arrivals) ==> Told(Entries(s.live), s', done', w))
            && (forall k: nat :: k !in Numbers(Served(batch, arrivals)) ==>
                  Lookup(Entries(s'.live), k) == Lookup(Entries(s.live), k) && Lookup(done', k) == Lookup(done, k))
    ensures var live := Lead(s, done, batch, arrivals).0.live;
            (Clean(s.live) ==> Clean(live)) && Lookup(live, META_KEY) == Lookup(s.live, META_KEY)
    decreases |arrivals|
  {
    hide Entries, EntryKey, ApplyOps;
    var served := Served(batch, arrivals);
    var s1, done1 := Flush(s, batch), Outcomes(done, batch, Succeeds(s));
    DistinctParts(batch, arrivals);
    BatchEntries(s.live, batch);
    FlushTells(s, done, batch);
    if Next(arrivals) != [] {
      var next, rest := Next(arrivals), Rest(arrivals);
      LeadTells(s1, done1, next, rest);
      LaterTells(s, done, batch, arrivals);
    }
  }

  lemma FlushTells(s: Shelf, done: map<nat, bool>, batch: seq<Waiter>)
    requires InRange(batch) && SeqsDiffer(batch)
    ensures var s', done' := Flush(s, batch), Outcomes(done, batch, Succeeds(s));
            && (forall w :: w in batch ==> Told(Entries(s.live), s', done', w))
            && (forall k: nat :: k !in Numbers(batch) ==>
                  Lookup(Entries(s'.live), k) == Lookup(Entries(s.live), k) && Lookup(done', k) == Lookup(done, k))
    ensures var live := Flush(s, batch).live;
            (Clean(s.live) ==> Clean(live)) && Lookup(live, META_KEY) == Lookup(s.live, META_KEY)
  {
    hide Entries, EntryKey, ApplyOps;
    BatchEntries(s.live, batch);
  }

  lemma NumbersServed(batch: seq<Waiter>, arrivals: seq<seq<Waiter>>)
    requires Next(arrivals) != []
    ensures Numbers(Served(batch, arrivals)) == Numbers(batch) + Numbers(Served(Next(arrivals), Rest(arrivals)))
  {
    var later := Served(Next(arrivals), Rest(arrivals));
    var both := batch + later;
    forall i | 0 <= i < |both|
      ensures both[i].0 in Numbers(batch) + Numbers(later)
    {
      if i < |batch| {
        assert batch[i].0 == both[i].0;
      } else {
        assert later[i - |batch|].0 == both[i].0;
      }
    }
    forall i | 0 <= i < |batch|
      ensures batch[i].0 in Numbers(both)
    {
      assert both[i].0 == batch[i].0;
    }
    forall j | 0 <= j < |later|
      ensures later[j].0 in Numbers(both)
    {
      assert both[|batch| + j].0 == later[j].0;
    }
  }

  lemma DistinctParts(batch: seq<Waiter>, arrivals: seq<seq<Waiter>>)
    requires SeqsDiffer(Served(batch, arrivals))
    ensures SeqsDiffer(batch)
    ensures Next(arrivals) != [] ==>
              var later := Served(Next(arrivals), Rest(arrivals));
              SeqsDiffer(later) && Numbers(batch) !! Numbers(later)
              && Numbers(Served(batch, arrivals)) == Numbers(batch) + Numbers(later)
  {
    var served := Served(batch, arrivals);
    if Next(arrivals) == [] {
      assert served == batch;
    } else {
      var later := Served(Next(arrivals), Rest(arrivals));
      assert served == batch + later;
      forall i, j | 0 <= i < j < |batch|
        ensures batch[i].0 != batch[j].0
      {
        assert served[i] == batch[i] && served[j] == batch[j];
      }
      forall i, j | 0 <= i < j < |later|
        ensures later[i].0 != later[j].0
      {
        assert served[|batch| + i] == later[i] && served[|batch| + j] == later[j];
      }
      forall i, j | 0 <= i < |batch| && 0 <= j < |later|
        ensures batch[i].0 != later[j].0
      {
        assert served[i] == batch[i] && served[|batch| + j] == later[j];
      }
      NumbersServed(batch, arrivals);
    }
  }

  /** Outcomes recorded earlier are not disturbed by the batches that follow. */
  lemma LaterTells(s: Shelf, done: map<nat, bool>, batch: seq<Waiter>, arrivals: seq<seq<Waiter>>)
    requires InRange(batch) && AllInRange(arrivals) && SeqsDiffer(Served(batch, arrivals)) && Next(arrivals) != []
    requires var s1, done1 := Flush(s, batch), Outcomes(done, batch, Succeeds(s));
             var later := Served(Next(arrivals), Rest(arrivals));
             var (s', done') := Lead(s1, done1, Next(arrivals), Rest(arrivals));
             && (forall w :: w in later ==> Told(Entries(s1.live), s', done', w))
             && (forall k: nat :: k !in Numbers(later) ==>
                   Lookup(Entries(s'.live), k) == Lookup(Entries(s1.live), k) && Lookup(done', k) == Lookup(done1, k))
    ensures var (s', done') := Lead(s, done, batch, arrivals);
            && (forall w :: w in Served(batch, arrivals) ==> Told(Entries(s.live), s', done', w))
            && (forall k: nat :: k !in Numbers(Served(batch, arrivals)) ==>
                  Lookup(Entries(s'.live), k) == Lookup(Entries(s.live), k) && Lookup(done', k) == Lookup(done, k))
  {
    hide Entries, EntryKey, ApplyOps, Flush, Outcomes;
    DistinctParts(batch, arrivals);
    FlushTells(s, done, batch);
    var later := Served(Next(arrivals), Rest(arrivals));
    var s1, done1 := Flush(s, batch), Outcomes(done, batch, Succeeds(s));
    var (s', done') := Lead(s1, done1, Next(arrivals), Rest(arrivals));
    forall w | w in batch + later
      ensures Told(Entries(s.live), s', done', w)
    {
      if w in batch {
        NumberOf(batch, w);
        assert Told(Entries(s.live), s1, done1, w);
        assert Lookup(done', w.0) == Lookup(done1, w.0);
      } else {
        NumberOf(later, w);
        assert Told(Entries(s1.live), s', done', w);
      }
    }
  }

  // ---- what is synced ----

  /** How many batches the leader commits: its own, and one for each commit that somebody joined during. */
  function Rounds(arrivals: seq<seq<Waiter>>): nat
    decreases |arrivals|
  {
    if Next(arrivals) == [] then 1 else 1 + Rounds(Rest(arrivals))
  }

  /** Some batch of the leader's succeeds. */
  predicate SomeSucceeds(s: Shelf, arrivals: seq<seq<Waiter>>) {
    exists i :: s.commits <= i < s.commits + Rounds(arrivals) && !s.fails(i)
  }

  /** One commit a batch; once one succeeds all that is stored is synced; when none does nothing changes. */
  lemma {:induction false} LeadSyncs(s: Shelf, done: map<nat, bool>, batch: seq<Waiter>, arrivals: seq<seq<Waiter>>)
    requires InRange(batch) && AllInRange(arrivals)
    ensures var (s', done') := Lead(s, done, batch, arrivals);
            && s'.fails == s.fails && s'.commits == s.commits + Rounds(arrivals)
            && (SomeSucceeds(s, arrivals) ==> s'.synced == s'.live)
            && (!SomeSucceeds(s, arrivals) ==> s'.live == s.live && s'.synced == s.synced)
            && (!SomeSucceeds(s, arrivals) ==> forall k :: k in Numbers(Served(batch, arrivals)) ==> Lookup(done', k) == Some(false))
    decreases |arrivals|
  {
    hide ApplyOps, EntryKey, PutOps;
    var s1, done1 := Flush(s, batch), Outcomes(done, batch, Succeeds(s));
    if Next(arrivals) == [] {
      assert Succeeds(s) ==> s.commits <= s.commits < s.commits + Rounds(arrivals) && !s.fails(s.commits);
    } else {
      var next, rest := Next(arrivals), Rest(arrivals);
      LeadSyncs(s1, done1, next, rest);
      OneOrLater(s, s1, arrivals);
      if !SomeSucceeds(s, arrivals) {
        OutsideLater(s1, done1, next, rest);
        NumbersServed(batch, arrivals);
      }
    }
  }

  lemma OneOrLater(s: Shelf, s1: Shelf, arrivals: seq<seq<Waiter>>)
    requires Next(arrivals) != [] && s1.commits == s.commits + 1 && s1.fails == s.fails
    ensures SomeSucceeds(s, arrivals) <==> Succeeds(s) || SomeSucceeds(s1, Rest(arrivals))
  {
    if i :| s.commits <= i < s.commits + Rounds(arrivals) && !s.fails(i) {
      assert i == s.commits || (s1.commits <= i < s1.commits + Rounds(Rest(arrivals)) && !s1.fails(i));
    }
    if Succeeds(s) {
      assert !s.fails(s.commits) && s.commits < s.commits + Rounds(arrivals);
    }
    if i :| s1.commits <= i < s1.commits + Rounds(Rest(arrivals)) && !s1.fails(i) {
      assert s.commits <= i < s.commits + Rounds(arrivals) && !s.fails(i);
    }
  }

  /** Outcomes of seqs not served stay. */
  lemma {:induction false} OutsideLater(s: Shelf, done: map<nat, bool>, batch: seq<Waiter>, arrivals: seq<seq<Waiter>>)
    requires InRange(batch) && AllInRange(arrivals)
    ensures forall k :: k !in Numbers(Served(batch, arrivals)) ==> Lookup(Lead(s, done, batch, arrivals).1, k) == Lookup(done, k)
    decreases |arrivals|
  {
    hide Flush;
    if Next(arrivals) != [] {
      OutsideLater(Flush(s, batch), Outcomes(done, batch, Succeeds(s)), Next(arrivals), Rest(arrivals));
      NumbersServed(batch, arrivals);
    }
  }

  /** A caller told that its entry is stored has it on disk, not only in memory. */
  ghost predicate Promised(e: map<nat, Bytes>, live: ByteMap, synced: ByteMap, w: Waiter, ok: bool) {
    && (ok ==> Lookup(Entries(live), w.0) == Some(w.1) && Lookup(Entries(synced), w.0) == Some(w.1))
    && (!ok ==> Lookup(Entries(live), w.0) == Lookup(e, w.0))
  }

  /** Every caller the leader serves has an outcome; those told Ok have their own bytes on disk. */
  lemma LeadPromises(s: Shelf, done: map<nat, bool>, batch: seq<Waiter>, arrivals: seq<seq<Waiter>>)
    requires InRange(batch) && AllInRange(arrivals) && SeqsDiffer(Served(batch, arrivals))
    ensures var (s', done') := Lead(s, done, batch, arrivals);
            forall w :: w in Served(batch, arrivals) ==>
              w.0 in done' && Promised(Entries(s.live), s'.live, s'.synced, w, done'[w.0])
  {
    hide Entries, EntryKey, ApplyOps, Flush, Outcomes, Lead;
    LeadTells(s, done, batch, arrivals);
    LeadSyncs(s, done, batch, arrivals);
    forall w | w in Served(batch, arrivals)
      ensures w.0 in Numbers(Served(batch, arrivals))
    {
      NumberOf(Served(batch, arrivals), w);
    }
  }

  /** The first batch's outcome is that of its own commit. */
  lemma FirstTold(s: Shelf, done: map<nat, bool>, batch: seq<Waiter>, arrivals: seq<seq<Waiter>>)
    requires InRange(batch) && AllInRange(arrivals) && SeqsDiffer(Served(batch, arrivals))
    ensures forall w :: w in batch ==> w in Served(batch, arrivals)
    ensures forall w :: w in batch ==> Lookup(Lead(s, done, batch, arrivals).1, w.0) == Some(Succeeds(s))
  {
    hide Flush, SeqsDiffer;
    DistinctParts(batch, arrivals);
    forall w | w in batch
      ensures w.0 in Numbers(batch)
    {
      NumberOf(batch, w);
    }
    if Next(arrivals) != [] {
      OutsideLater(Flush(s, batch), Outcomes(done, batch, Succeeds(s)), Next(arrivals), Rest(arrivals));
    }
  }

  /**
   What a call by the leading caller of `k` leaves to the others it served: each finds an
   outcome, kept on disk if Ok; and no key outside, nor the meta record, is touched.
   */
  ghost predicate Serves(live0: ByteMap, done0: map<nat, bool>, live: ByteMap, synced: ByteMap, outcomes: map<nat, bool>,
                         served: seq<Waiter>, k: nat)
  {
    && (forall w :: w in served && w.0 != k ==>
          w.0 in outcomes && Promised(Entries(live0), live, synced, w, outcomes[w.0]))
    && (forall j: nat :: j !in Numbers(served) ==>
          Lookup(Entries(live), j) == Lookup(Entries(live0), j) && Lookup(outcomes, j) == Lookup(done0, j))
    && Lookup(live, META_KEY) == Lookup(live0, META_KEY)
    && (Clean(live0) ==> Clean(live))
  }

  lemma LeadServes(s: Shelf, done: map<nat, bool>, k: nat, value: Bytes, arrivals: seq<seq<Waiter>>)
    requires k <= U64_MAX && AllInRange(arrivals) && SeqsDiffer(Served([(k, value)], arrivals))
    ensures var (shelf, outcomes) := Lead(s, done, [(k, value)], arrivals);
            && Serves(s.live, done, shelf.live, shelf.synced, outcomes, Served([(k, value)], arrivals), k)
            && Lookup(outcomes, k) == Some(Succeeds(s))
            && Promised(Entries(s.live), shelf.live, shelf.synced, (k, value), Succeeds(s))
            && shelf.fails == s.fails && shelf.commits == s.commits + Rounds(arrivals)
  {
    hide Entries, EntryKey, ApplyOps, Outcomes, Lead, Clean, Promised, Told, SomeSucceeds, Flush;
    var batch := [(k, value)];
    LeadPromises(s, done, batch, arrivals);
    LeadTells(s, done, batch, arrivals);
    LeadSyncs(s, done, batch, arrivals);
    FirstTold(s, done, batch, arrivals);
    assert batch[0] == (k, value) && (k, value) in batch;
    assert (k, value) in Served(batch, arrivals);
  }

  /** The lone retry keeps what the others were told, and makes the caller's own promise good or leaves its key alone. */
  lemma RetryServes(live0: ByteMap, done0: map<nat, bool>, s: Shelf, outcomes: map<nat, bool>, served: seq<Waiter>, k: nat, value: Bytes)
    requires k <= U64_MAX && (k, value) in served && Serves(live0, done0, s.live, s.synced, outcomes, served, k)
    requires Promised(Entries(live0), s.live, s.synced, (k, value), false)
    ensures var s2 := Flush(s, [(k, value)]);
            && Serves(live0, done0, s2.live, s2.synced, outcomes, served, k)
            && Promised(Entries(live0), s2.live, s2.synced, (k, value), Succeeds(s))
            && s2.commits == s.commits + 1
  {
    hide Entries, EntryKey, ApplyOps, Outcomes, Clean, PutOps;
    var batch := [(k, value)];
    FlushTells(s, map[], batch);
    assert batch[0] == (k, value) && (k, value) in batch;
    assert Numbers(batch) == {k};
    OutcomeOfOne(k, value, Succeeds(s));
    NumberOf(served, (k, value));
  }

  lemma OutcomeOfOne(k: nat, value: Bytes, ok: bool)
    ensures Outcomes(map[], [(k, value)], ok) == map[k := ok]
  {
    assert [(k, value)][0].0 == k;
    assert Numbers([(k, value)]) == {k};
  }

  /** What a whole call by a leading caller leaves behind; `s2` is the store at its end. */
  lemma CallPromises(s: Shelf, done: map<nat, bool>, k: nat, value: Bytes, arrivals: seq<seq<Waiter>>)
    requires k <= U64_MAX && AllInRange(arrivals) && SeqsDiffer(Served([(k, value)], arrivals))
    ensures var (shelf, outcomes) := Lead(s, done, [(k, value)], arrivals);
            var s2 := if Lookup(outcomes, k) == Some(true) then shelf else Flush(shelf, [(k, value)]);
            var ok := Lookup(outcomes, k) == Some(true) || Succeeds(shelf);
            && (ok <==> !s.fails(s.commits) || !s.fails(s.commits + Rounds(arrivals)))
            && s2.commits == s.commits + Rounds(arrivals) + (if s.fails(s.commits) then 1 else 0)
            && Promised(Entries(s.live), s2.live, s2.synced, (k, value), ok)
            && Serves(s.live, done, s2.live, s2.synced, outcomes, Served([(k, value)], arrivals), k)
  {
    hide Entries, EntryKey, ApplyOps, Lead, Promised, Serves, Flush;
    var (shelf, outcomes) := Lead(s, done, [(k, value)], arrivals);
    LeadServes(s, done, k, value, arrivals);
    if s.fails(s.commits) {
      FirstTold(s, done, [(k, value)], arrivals);
      assert [(k, value)][0] == (k, value) && (k, value) in [(k, value)];
      RetryServes(s.live, done, shelf, outcomes, Served([(k, value)], arrivals), k, value);
    }
  }

  /** Collecting the caller's own outcome takes nothing from the others. */
  lemma CollectServes(live0: ByteMap, done0: map<nat, bool>, s: Shelf, outcomes: map<nat, bool>, served: seq<Waiter>, k: nat)
    requires Serves(live0, done0, s.live, s.synced, outcomes, served, k) && k in Numbers(served)
    ensures Serves(live0, done0, s.live, s.synced, outcomes - {k}, served, k)
  {
  }

  lemma OwnNumber(k: nat, value: Bytes, arrivals: seq<seq<Waiter>>)
    ensures k in Numbers(Served([(k, value)], arrivals))
  {
    var served := Served([(k, value)], arrivals);
    assert served[0] == (k, value);
  }

  lemma NumberOf(batch: seq<Waiter>, w: Waiter)
    requires w in batch
    ensures w.0 in Numbers(batch)
  {
    var i :| 0 <= i < |batch| && batch[i] == w;
  }

  // ---- the code ----

  class Committer {
    const store: SharedMem
    var pending: seq<Waiter>
    var flushing: bool
    var done: map<nat, bool>

    constructor (store: SharedMem)
      ensures this.store == store && pending == [] && !flushing && done == map[]
    {
      this.store := store;
      pending, flushing, done := [], false, map[];
    }

    /** Nobody is inside. */
    predicate Idle()
      reads this
    {
      !flushing && pending == [] && done == map[]
    }

    ghost function State(): Shelf
      reads store
    {
      Shelf(store.live, store.synced, store.commits, store.fails)
    }

    /** The leader's loop: flush what is pending until nobody has joined meanwhile. */
    method FlushAll(arrivals: seq<seq<Waiter>>)
      requires flushing && pending != [] && InRange(pending) && AllInRange(arrivals)
      modifies this, store
      ensures !flushing && pending == []
      ensures (State(), done) == Lead(old(State()), old(done), old(pending), arrivals)
      ensures store.commits == old(store.commits) + Rounds(arrivals)
      ensures SeqsDiffer(Served(old(pending), arrivals)) ==>
                forall w :: w in Served(old(pending), arrivals) ==>
                  w.0 in done && Promised(Entries(old(store.live)), store.live, store.synced, w, done[w.0])
    {
      hide ApplyOps, EntryKey, Outcomes, PutOps, Lead, Next, Rest, InRange, AllInRange, Entries, Served, Promised, SeqsDiffer, Rounds;
      LeadSyncs(State(), done, pending, arrivals);
      if SeqsDiffer(Served(pending, arrivals)) {
        LeadPromises(State(), done, pending, arrivals);
      }
      var i := 0;
      ghost var left := arrivals;
      while true
        invariant flushing && i + |left| == |arrivals| && left == arrivals[i..]
        invariant pending != [] && InRange(pending) && AllInRange(left)
        invariant Lead(State(), done, pending, left) == Lead(old(State()), old(done), old(pending), arrivals)
        decreases |arrivals| - i
      {
        LeadStep(State(), done, pending, left);
        var batch := pending;
        pending := [];
        ghost var before := State();
        var good := store.Commit(PutOps(batch), true);
        assert State() == Flush(before, batch);
        if i < |arrivals| {
          pending := pending + arrivals[i];
        }
        NextIs(arrivals, i, pending);
        Record(batch, good);
        if pending == [] {
          flushing := false;
          break;
        }
        left := Rest(left);
        i := i + 1;
      }
    }

    /** Record the batch's outcome for each of its callers. */
    method Record(batch: seq<Waiter>, good: bool)
      modifies `done
      ensures done == Outcomes(old(done), batch, good)
    {
      assert batch[..0] == [] && Outcomes(done, [], good) == done;
      for i := 0 to |batch|
        invariant done == Outcomes(old(done), batch[..i], good)
      {
        OutcomesNext(old(done), batch, i, good);
        done := done[batch[i].0 := good];
      }
      assert batch[..|batch|] == batch;
    }

    /**
     The leader's path through `group_commit`: join, flush, collect, and retry alone if its
     batch failed. Ok means the caller's own bytes are on disk, and each of the others finds
     an outcome that means the same for it.
     */
    method GroupCommit(k: nat, value: Bytes, arrivals: seq<seq<Waiter>>) returns (ok: bool)
      requires !flushing && pending == []
      requires k <= U64_MAX && AllInRange(arrivals)
      modifies this, store
      ensures !flushing && pending == []
      ensures var (shelf, outcomes) := Lead(old(State()), old(done), [(k, value)], arrivals);
              && done == outcomes - {k}
              && (Lookup(outcomes, k) == Some(true) ==> ok && State() == shelf)
              && (Lookup(outcomes, k) != Some(true) ==>
                    ok == Succeeds(shelf) && State() == Flush(shelf, [(k, value)]))
      ensures SeqsDiffer(Served([(k, value)], arrivals)) ==>
                && (ok <==> !store.fails(old(store.commits)) || !store.fails(old(store.commits) + Rounds(arrivals)))
                && store.commits == old(store.commits) + Rounds(arrivals) + (if store.fails(old(store.commits)) then 1 else 0)
                && Promised(Entries(old(store.live)), store.live, store.synced, (k, value), ok)
                && Serves(old(store.live), old(done), store.live, store.synced, done, Served([(k, value)], arrivals), k)
    {
      hide Lead, EntryKey, PutOps, Entries, ApplyOps, Served, Promised, SeqsDiffer, Rounds, Numbers, Outcomes;
      if SeqsDiffer(Served([(k, value)], arrivals)) {
        CallPromises(State(), done, k, value, arrivals);
        OwnNumber(k, value, arrivals);
        var (shelf, outcomes) := Lead(State(), done, [(k, value)], arrivals);
        var s2 := if Lookup(outcomes, k) == Some(true) then shelf else Flush(shelf, [(k, value)]);
        CollectServes(store.live, done, s2, outcomes, Served([(k, value)], arrivals), k);
      }
      pending := pending + [(k, value)];
      flushing := true;
      assert pending == [(k, value)];
      FlushAll(arrivals);
      var outcome := Lookup(done, k);
      done := done - {k};
      if outcome == Some(true) {
        ok := true;
      } else {
        SinglePut(k, value);
        ok := store.Commit([Put(EntryKey(k), value)], true);
      }
    }
  }

  lemma OutcomesNext(done: map<nat, bool>, batch: seq<Waiter>, i: nat, ok: bool)
    requires i < |batch|
    ensures Outcomes(done, batch[..i + 1], ok) == Outcomes(done, batch[..i], ok)[batch[i].0 := ok]
  {
    var now, next := batch[..i], batch[..i + 1];
    forall k: nat
      ensures k in Numbers(next) <==> k in Numbers(now) || k == batch[i].0
    {
      if k in Numbers(now) {
        var j :| 0 <= j < |now| && now[j].0 == k;
        assert next[j].0 == k;
      }
      assert next[i].0 == batch[i].0;
    }
  }

  lemma LeadStep(s: Shelf, done: map<nat, bool>, batch: seq<Waiter>, arrivals: seq<seq<Waiter>>)
    requires InRange(batch) && AllInRange(arrivals)
    ensures InRange(Next(arrivals)) && AllInRange(Rest(arrivals))
    ensures var s', done' := Flush(s, batch), Outcomes(done, batch, Succeeds(s));
            Lead(s, done, batch, arrivals)
            == if Next(arrivals) == [] then (s', done') else Lead(s', done', Next(arrivals), Rest(arrivals))
  {
  }

  lemma NextIs(arrivals: seq<seq<Waiter>>, i: nat, joined: seq<Waiter>)
    requires i <= |arrivals| && joined == (if i < |arrivals| then [] + arrivals[i] else [])
    ensures joined == Next(arrivals[i..])
    ensures joined != [] ==> i < |arrivals| && Rest(arrivals[i..]) == arrivals[i + 1..]
  {
  }

  lemma SinglePut(k: nat, v: Bytes)
    requires k <= U64_MAX
    ensures PutOps([(k, v)]) == [Put(EntryKey(k), v)]
  {
  }
}
