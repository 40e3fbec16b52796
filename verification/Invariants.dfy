/** What every interleaving keeps, for the queue with one commit per push. */
module Invariants {
  import opened Base
  import opened Protocol

  // ---- the ledger against the threads, the guards and the store ----

  /** A seq in flight, or failed and not given back, has exactly one owner; a stored one landed; one given back is void. */
  ghost predicate ThreadsMatch(threads: map<nat, Pc>, book: map<nat, Life>) {
    && (forall k :: k in book && book[k].stage.InFlight? ==>
      book[k].stage.t in threads && threads[book[k].stage.t] == Claimed(k, book[k].item))
    && (forall k :: k in book && book[k].stage.Broken? ==>
      book[k].stage.t in threads && threads[book[k].stage.t] == Failed(k, book[k].item))
    && (forall t :: t in threads && threads[t].Claimed? ==>
      threads[t].no in book && book[threads[t].no] == Life(threads[t].item, InFlight(t)))
    && (forall t :: t in threads && threads[t].Failed? ==>
      threads[t].no in book && book[threads[t].no] == Life(threads[t].item, Broken(t)))
    && (forall t :: t in threads && threads[t].Stored? ==>
      threads[t].no in book && book[threads[t].no].item == threads[t].item && Landed(book[threads[t].no].stage))
    && (forall t :: t in threads && threads[t].Owes? ==>
      threads[t].no in book && book[threads[t].no] == Life(threads[t].item, Void))
  }

  predicate Landed(stage: Stage) {
    stage.Live? || stage.Removed? || stage.Acked?
  }

  /** A guard's entry is live until its delete commits; a deleted one has exactly one guard. */
  ghost predicate GuardsMatch(guards: map<nat, Guard>, book: map<nat, Life>) {
    && (forall k :: k in book && book[k].stage.Removed? ==>
      book[k].stage.g in guards && guards[book[k].stage.g] == Guard(k, book[k].item, Deleted))
    && (forall g :: g in guards && guards[g].phase == Deleted ==>
      guards[g].no in book && book[guards[g].no] == Life(guards[g].item, Removed(g)))
    && (forall g :: g in guards && guards[g].phase != Deleted && guards[g].phase != Settled ==>
      guards[g].no in book && book[guards[g].no] == Life(guards[g].item, Live))
  }

  ghost predicate LiveMatch(live: map<nat, Item>, book: map<nat, Life>) {
    && (forall k :: k in live ==> k in book && book[k] == Life(live[k], Live))
    && (forall k :: k in book && book[k].stage.Live? ==> k in live)
  }

  ghost predicate BookInv(s: State) {
    && (forall k :: k in s.h.book ==> k < s.q.tail)
    && ThreadsMatch(s.threads, s.h.book)
    && GuardsMatch(s.guards, s.h.book)
    && LiveMatch(s.disk.live, s.h.book)
  }

  // ---- guards ----

  /** `g` is an outstanding guard on seq `k`. */
  predicate Holds(guards: map<nat, Guard>, g: nat, k: nat) {
    g in guards && guards[g].phase != Settled && guards[g].no == k
  }

  /** The reserved set is exactly the seqs of the outstanding guards, and no two share one. */
  ghost predicate Exclusive(guards: map<nat, Guard>, reserved: set<nat>) {
    && (forall k :: k in reserved <==> exists g :: Holds(guards, g, k))
    && (forall g, g', k :: Holds(guards, g, k) && Holds(guards, g', k) ==> g == g')
  }

  ghost predicate GuardInv(s: State) {
    Exclusive(s.guards, s.q.reserved)
  }

  // ---- accounting ----

  /** A seq that still counts against `len` and `bytes`. */
  predicate Outstanding(stage: Stage) {
    stage.InFlight? || stage.Live? || stage.Broken? || stage.Removed?
  }

  function Owed(book: map<nat, Life>): map<nat, Bytes> {
    map k | k in book && Outstanding(book[k].stage) :: book[k].item.value
  }

  ghost predicate AccountInv(s: State) {
    s.q.len == |Owed(s.h.book)| && s.q.bytes == SumTo(Owed(s.h.book), s.q.tail)
  }

  // ---- the head cursor ----

  predicate IsAcked(book: map<nat, Life>, k: nat) {
    k in book && book[k].stage.Acked?
  }

  /**
   The seqs acked in this session are `[head0, head)` and `ackedAbove`, and every member of
   `ackedAbove` lies strictly between `head` and `tail`.
   */
  ghost predicate HeadMatch(head: nat, tail: nat, above: set<nat>, head0: nat, book: map<nat, Life>) {
    && head0 <= head <= tail
    && (forall k :: k in book ==> head0 <= k < tail)
    && (forall k :: k in above ==> head < k < tail)
    && (forall k: nat :: IsAcked(book, k) <==> head0 <= k < head || k in above)
  }

  ghost predicate HeadInv(s: State) {
    HeadMatch(s.q.head, s.q.tail, s.q.ackedAbove, s.h.head0, s.h.book)
  }

  // ---- one consumer, and its scan ----

  predicate Busy(guards: map<nat, Guard>, g: nat) {
    g in guards && guards[g].phase != Held
  }

  /** At most one `reserve` or `ack` is under way. */
  ghost predicate Serial(calls: map<nat, Call>, guards: map<nat, Guard>) {
    && (forall c, c' :: c in calls && c' in calls ==> c == c')
    && (forall g, g' :: Busy(guards, g) && Busy(guards, g') ==> g == g')
    && (forall c, g :: c in calls ==> !Busy(guards, g))
  }

  /** The reserved seqs a scan at `cursor` has yet to pass. */
  function Ahead(reserved: set<nat>, cursor: nat): set<nat> {
    set k | k in reserved && cursor <= k
  }

  predicate CallOk(call: Call, live: map<nat, Item>, reserved: set<nat>) {
    && call.avail <= live.Keys - reserved
    && match call
       case Seeking(cursor, avail, seeks) =>
         && (forall k :: k in avail ==> cursor <= k)
         && seeks + |Ahead(reserved, cursor)| <= |reserved|
       case Sought(k, item, avail, seeks) =>
         && (forall k' :: k' in avail ==> k <= k')
         && k in live && live[k] == item
         && seeks + |Ahead(reserved, k)| <= |reserved| + 1
  }

  ghost predicate Scans(calls: map<nat, Call>, live: map<nat, Item>, reserved: set<nat>) {
    forall c :: c in calls ==> CallOk(calls[c], live, reserved)
  }

  ghost predicate ScanInv(s: State) {
    Serial(s.calls, s.guards) && Scans(s.calls, s.disk.live, s.q.reserved)
  }

  ghost predicate Inv(s: State) {
    BookInv(s) && GuardInv(s) && AccountInv(s) && HeadInv(s) && ScanInv(s)
  }

  // ---- guard exclusivity, for any number of consumer threads ----

  lemma GuardsSame(guards: map<nat, Guard>, guards': map<nat, Guard>, reserved: set<nat>)
    requires Exclusive(guards, reserved)
    requires forall g, k :: Holds(guards, g, k) == Holds(guards', g, k)
    ensures Exclusive(guards', reserved)
  {
    forall k
      ensures k in reserved <==> exists g :: Holds(guards', g, k)
    {
      if g :| Holds(guards, g, k) {
        assert Holds(guards', g, k);
      }
    }
  }

  lemma GuardGained(guards: map<nat, Guard>, reserved: set<nat>, g: nat, taken: Guard)
    requires Exclusive(guards, reserved) && g !in guards && taken.no !in reserved && taken.phase == Held
    ensures Exclusive(guards[g := taken], reserved + {taken.no})
  {
    var guards' := guards[g := taken];
    assert Holds(guards', g, taken.no);
    assert forall g', k :: Holds(guards', g', k) <==> Holds(guards, g', k) || (g' == g && k == taken.no);
    forall k
      ensures k in reserved + {taken.no} <==> exists g' :: Holds(guards', g', k)
    {
      if g' :| Holds(guards, g', k) {
        assert Holds(guards', g', k);
      }
    }
  }

  lemma GuardLost(guards: map<nat, Guard>, guards': map<nat, Guard>, reserved: set<nat>, g: nat, k: nat)
    requires Exclusive(guards, reserved) && Holds(guards, g, k)
    requires forall g', k' :: Holds(guards', g', k') <==> Holds(guards, g', k') && g' != g
    ensures Exclusive(guards', reserved - {k})
  {
    forall k'
      ensures k' in reserved - {k} <==> exists g' :: Holds(guards', g', k')
    {
      if g' :| Holds(guards, g', k') {
        assert k' != k ==> Holds(guards', g', k');
      }
    }
  }

  lemma GuardStep(s: State, a: Action)
    requires GuardInv(s) && Enabled(s, a)
    ensures GuardInv(Apply(s, a))
  {
    match a
    case Take(c, g) =>
      var k := s.calls[c].no;
      if k !in s.q.reserved {
        GuardGained(s.guards, s.q.reserved, g, Guard(k, s.calls[c].item, Held));
      }
    case BeginAck(g) => GuardsSame(s.guards, s.guards[g := s.guards[g].(phase := Acking)], s.q.reserved);
    case Delete(g, ok) => GuardsSame(s.guards, DoDelete(s, g, ok).guards, s.q.reserved);
    case Release(g) => GuardLost(s.guards, s.guards - {g}, s.q.reserved, g, s.guards[g].no);
    case SettleAck(g) => GuardLost(s.guards, DoSettleAck(s, g).guards, s.q.reserved, g, s.guards[g].no);
    case NotifyAck(g, w) => GuardsSame(s.guards, s.guards - {g}, s.q.reserved);
    case _ =>
  }

  // ---- the head cursor ----

  lemma HeadSettle(q: Inner, head0: nat, book: map<nat, Life>, k: nat, size: nat)
    requires HeadMatch(q.head, q.tail, q.ackedAbove, head0, book) && k in book && !IsAcked(book, k)
    ensures var q' := AfterAck(q, k, size);
            HeadMatch(q'.head, q'.tail, q'.ackedAbove, head0, Mark(book, k, Acked))
  {
    assert forall j: nat :: IsAcked(Mark(book, k, Acked), j) <==> IsAcked(book, j) || j == k;
    if k == q.head {
      JumpMeans(k + 1, q.ackedAbove);
      var r := Jump(k + 1, q.ackedAbove);
      if r.0 > k + 1 {
        assert r.0 - 1 in q.ackedAbove;
      }
    }
  }

  lemma HeadMark(head: nat, tail: nat, above: set<nat>, head0: nat, book: map<nat, Life>, k: nat, stage: Stage)
    requires HeadMatch(head, tail, above, head0, book) && !IsAcked(book, k) && !stage.Acked?
    ensures HeadMatch(head, tail, above, head0, Mark(book, k, stage))
  {
    assert forall j: nat :: IsAcked(Mark(book, k, stage), j) == IsAcked(book, j);
  }

  lemma HeadClaim(head: nat, tail: nat, above: set<nat>, head0: nat, book: map<nat, Life>, life: Life)
    requires HeadMatch(head, tail, above, head0, book) && !life.stage.Acked?
    ensures HeadMatch(head, tail + 1, above, head0, book[tail := life])
  {
    var book' := book[tail := life];
    assert tail !in above;
    forall j: nat
      ensures IsAcked(book', j) == IsAcked(book, j)
    {
      if j == tail {
        assert j !in book;
      }
    }
  }

  // ---- the ledger ----

  /** `threads'` differs from `threads` only at threads that own no unsettled seq. */
  ghost predicate SameOwners(threads: map<nat, Pc>, threads': map<nat, Pc>) {
    && (forall t :: t in threads && (threads[t].Claimed? || threads[t].Failed?) ==>
      t in threads' && threads'[t] == threads[t])
    && (forall t :: t in threads' && (threads'[t].Claimed? || threads'[t].Failed? || threads'[t].Stored? || threads'[t].Owes?) ==>
      t in threads && threads[t] == threads'[t])
  }

  /** A guard over a live entry moves to another phase, is taken, or is given up. */
  lemma GuardsKept(guards: map<nat, Guard>, book: map<nat, Life>, g: nat, guard: Guard)
    requires GuardsMatch(guards, book)
    requires g in guards ==> guards[g].phase != Deleted
    requires guard.phase != Deleted && guard.phase != Settled ==>
      guard.no in book && book[guard.no] == Life(guard.item, Live)
    ensures guard.phase != Deleted ==> GuardsMatch(guards[g := guard], book)
    ensures GuardsMatch(guards - {g}, book)
  {
  }

  /** What the ledger says about the seq of a thread that owns one. */
  lemma OwnerKnown(s: State, t: nat)
    requires Inv(s) && t in s.threads && (s.threads[t].Claimed? || s.threads[t].Failed?)
    ensures var k, item := s.threads[t].no, s.threads[t].item;
            && k in s.h.book && k < s.q.tail && k !in s.disk.live
            && s.h.book[k] == Life(item, if s.threads[t].Claimed? then InFlight(t) else Broken(t))
  {
    hide GuardsMatch, Exclusive, HeadMatch, Serial, Scans;
  }

  /** What the ledger says about the seq of a push that has been stored, or whose slot was given back. */
  lemma StoredKnown(s: State, t: nat)
    requires Inv(s) && t in s.threads && (s.threads[t].Stored? || s.threads[t].Owes?)
    ensures var k := s.threads[t].no;
            && k in s.h.book && s.h.book[k].item == s.threads[t].item
            && if s.threads[t].Stored? then Landed(s.h.book[k].stage) else s.h.book[k].stage.Void?
  {
    hide GuardsMatch, LiveMatch, Exclusive, HeadMatch, Serial, Scans;
  }

  /** What the ledger says about the seq of an outstanding guard. */
  lemma GuardKnown(s: State, g: nat)
    requires Inv(s) && g in s.guards && s.guards[g].phase != Settled
    ensures var k, item := s.guards[g].no, s.guards[g].item;
            && k in s.h.book && k < s.q.tail
            && s.h.book[k] == Life(item, if s.guards[g].phase == Deleted then Removed(g) else Live)
  {
    hide ThreadsMatch, Exclusive, HeadMatch, Serial, Scans;
  }

  lemma ThreadsKept(threads: map<nat, Pc>, threads': map<nat, Pc>, book: map<nat, Life>)
    requires ThreadsMatch(threads, book) && SameOwners(threads, threads')
    ensures ThreadsMatch(threads', book)
  {
  }

  lemma ThreadsClaim(threads: map<nat, Pc>, book: map<nat, Life>, t: nat, k: nat, item: Item)
    requires ThreadsMatch(threads, book) && k !in book
    requires t in threads ==> !threads[t].Claimed? && !threads[t].Failed?
    ensures ThreadsMatch(threads[t := Claimed(k, item)], book[k := Life(item, InFlight(t))])
  {
  }

  lemma ThreadsTurn(threads: map<nat, Pc>, book: map<nat, Life>, t: nat, pc: Pc, stage: Stage)
    requires ThreadsMatch(threads, book) && t in threads
    requires (threads[t].Claimed? && pc == Stored(threads[t].no, threads[t].item) && stage == Live)
             || (threads[t].Claimed? && pc == Failed(threads[t].no, threads[t].item) && stage == Broken(t))
             || (threads[t].Failed? && pc == Owes(threads[t].no, threads[t].item) && stage == Void)
    ensures ThreadsMatch(threads[t := pc], Mark(book, threads[t].no, stage))
  {
  }

  lemma ThreadsLanded(threads: map<nat, Pc>, book: map<nat, Life>, k: nat, stage: Stage)
    requires ThreadsMatch(threads, book) && k in book && Landed(book[k].stage) && Landed(stage)
    ensures ThreadsMatch(threads, Mark(book, k, stage))
  {
  }

  lemma GuardsUntouched(guards: map<nat, Guard>, book: map<nat, Life>, k: nat, life: Life)
    requires GuardsMatch(guards, book) && !life.stage.Removed?
    requires k in book ==> !book[k].stage.Live? && !book[k].stage.Removed?
    ensures GuardsMatch(guards, book[k := life])
  {
  }

  lemma GuardsDelete(guards: map<nat, Guard>, book: map<nat, Life>, reserved: set<nat>, g: nat)
    requires GuardsMatch(guards, book) && Exclusive(guards, reserved)
    requires g in guards && guards[g].phase == Acking
    ensures GuardsMatch(guards[g := guards[g].(phase := Deleted)], Mark(book, guards[g].no, Removed(g)))
  {
    assert Holds(guards, g, guards[g].no);
    forall g' | g' in guards && guards[g'].phase != Settled && g' != g
      ensures guards[g'].no != guards[g].no
    {
      assert Holds(guards, g', guards[g'].no);
    }
  }

  lemma GuardsSettle(guards: map<nat, Guard>, book: map<nat, Life>, g: nat)
    requires GuardsMatch(guards, book) && g in guards && guards[g].phase == Deleted
    ensures GuardsMatch(guards[g := guards[g].(phase := Settled)], Mark(book, guards[g].no, Acked))
  {
  }

  /** A seq is in the store exactly when the ledger has it live. */
  lemma LiveKnown(s: State, k: nat)
    requires BookInv(s)
    ensures k in s.disk.live ==> k in s.h.book && s.h.book[k] == Life(s.disk.live[k], Live)
    ensures k in s.h.book && s.h.book[k].stage.Live? ==> k in s.disk.live
  {
    hide ThreadsMatch, GuardsMatch;
  }

  lemma LiveMarked(live: map<nat, Item>, book: map<nat, Life>, k: nat, life: Life)
    requires LiveMatch(live, book)
    ensures life.stage.Live? ==> LiveMatch(live[k := life.item], book[k := life])
    ensures !life.stage.Live? ==> LiveMatch(live - {k}, book[k := life])
    ensures !life.stage.Live? && k !in live ==> LiveMatch(live, book[k := life])
  {
    assert k !in live ==> live - {k} == live;
  }

  // ---- accounting ----

  lemma OwedMark(book: map<nat, Life>, k: nat, stage: Stage)
    requires k in book && Outstanding(book[k].stage)
    ensures Outstanding(stage) ==> Owed(Mark(book, k, stage)) == Owed(book)
    ensures !Outstanding(stage) ==> Owed(Mark(book, k, stage)) == Owed(book) - {k}
  {
  }

  lemma AccountClaim(book: map<nat, Life>, tail: nat, life: Life)
    requires (forall k :: k in book ==> k < tail) && Outstanding(life.stage)
    ensures var book' := book[tail := life];
            && |Owed(book')| == |Owed(book)| + 1
            && SumTo(Owed(book'), tail + 1) == SumTo(Owed(book), tail) + |life.item.value|
  {
    var v := life.item.value;
    assert Owed(book[tail := life]) == Owed(book)[tail := v];
    SumToBeyond(Owed(book), tail, tail + 1);
    SumToAdd(Owed(book), tail, v, tail + 1);
  }

  lemma AccountSettle(book: map<nat, Life>, tail: nat, k: nat, stage: Stage)
    requires k in book && k < tail && Outstanding(book[k].stage) && !Outstanding(stage)
    ensures var book' := Mark(book, k, stage);
            && |Owed(book')| == |Owed(book)| - 1
            && SumTo(Owed(book'), tail) == SumTo(Owed(book), tail) - |book[k].item.value|
  {
    OwedMark(book, k, stage);
    MapRemoveSize(Owed(book), k);
    SumToRemove(Owed(book), k, tail);
  }

  // ---- the scan ----

  lemma AheadShrinks(reserved: set<nat>, k: nat)
    requires k in reserved
    ensures |Ahead(reserved, k + 1)| + 1 == |Ahead(reserved, k)|
  {
    assert Ahead(reserved, k) == Ahead(reserved, k + 1) + {k};
  }

  lemma AheadFurther(reserved: set<nat>, from: nat, to: nat)
    requires from <= to
    ensures |Ahead(reserved, to)| <= |Ahead(reserved, from)| <= |reserved|
  {
    SubsetSize(Ahead(reserved, to), Ahead(reserved, from));
    SubsetSize(Ahead(reserved, from), reserved);
  }

  lemma BusyAlone(calls: map<nat, Call>, guards: map<nat, Guard>, g: nat, guard: Guard)
    requires Serial(calls, guards) && Busy(guards, g)
    ensures calls == map[]
    ensures Serial(calls, guards[g := guard]) && Serial(calls, guards - {g})
  {
    var moved, rest := guards[g := guard], guards - {g};
    assert calls.Keys == {};
    forall g' | Busy(moved, g')
      ensures g' == g
    {
      assert g' == g || Busy(guards, g');
    }
    assert forall g' :: Busy(rest, g') ==> Busy(guards, g');
  }

  lemma ScansPut(calls: map<nat, Call>, live: map<nat, Item>, reserved: set<nat>, k: nat, item: Item)
    requires Scans(calls, live, reserved) && k !in live
    ensures Scans(calls, live[k := item], reserved)
  {
  }

  lemma ScansNone(live: map<nat, Item>, reserved: set<nat>)
    ensures Scans(map[], live, reserved)
  {
  }

  /** The only call in progress moves on, or ends. */
  lemma CallMoves(calls: map<nat, Call>, guards: map<nat, Guard>, c: nat, call: Call)
    requires Serial(calls, guards) && c in calls
    ensures Serial(calls[c := call], guards) && calls - {c} == map[] && Serial(map[], guards)
    ensures forall live, reserved :: CallOk(call, live, reserved) ==> Scans(calls[c := call], live, reserved)
  {
    assert (calls - {c}).Keys == {};
  }

  lemma CallTakes(calls: map<nat, Call>, guards: map<nat, Guard>, c: nat, g: nat, guard: Guard)
    requires Serial(calls, guards) && c in calls && g !in guards && guard.phase == Held
    ensures Serial(calls - {c}, guards[g := guard]) && calls - {c} == map[]
  {
    var guards' := guards[g := guard];
    assert (calls - {c}).Keys == {};
    assert forall g' :: Busy(guards', g') ==> Busy(guards, g');
  }

  lemma ScanFound(call: Call, live: map<nat, Item>, reserved: set<nat>)
    requires call.Seeking? && CallOk(call, live, reserved)
    ensures var found := LeastFrom(live.Keys, call.cursor);
            && (found.Some? ==>
                  CallOk(Sought(found.value, live[found.value], call.avail, call.seeks + 1), live, reserved))
            && (found.None? ==> call.avail == {} && call.seeks <= |reserved|)
  {
    var found := LeastFrom(live.Keys, call.cursor);
    if found.Some? {
      AheadFurther(reserved, call.cursor, found.value);
    }
  }

  lemma ScanSkips(call: Call, live: map<nat, Item>, reserved: set<nat>)
    requires call.Sought? && CallOk(call, live, reserved) && call.no in reserved
    ensures CallOk(Seeking(call.no + 1, call.avail, call.seeks), live, reserved)
  {
    AheadShrinks(reserved, call.no);
  }

  lemma ScanStarts(q: Inner, head0: nat, live: map<nat, Item>, book: map<nat, Life>)
    requires HeadMatch(q.head, q.tail, q.ackedAbove, head0, book) && LiveMatch(live, book)
    ensures CallOk(Seeking(q.head, live.Keys - q.reserved, 0), live, q.reserved)
  {
    forall k | k in live
      ensures q.head <= k
    {
      assert !IsAcked(book, k);
    }
    AheadFurther(q.reserved, q.head, q.head);
  }

  // ---- every action keeps the invariant ----

  lemma TryKeeps(s: State, t: nat, v: Bytes, wait: bool)
    requires Inv(s) && (t in s.threads ==> s.threads[t].Woken?)
    ensures Inv(Try(s, t, v, wait))
  {
    hide ThreadsMatch, GuardsMatch, LiveMatch, Exclusive, HeadMatch, Serial, Scans;
    var s' := Try(s, t, v, wait);
    if !s.q.closed && Admits(s.cfg, s.q.len, s.q.bytes, |v|) {
      var k := s.q.tail;
      var life := Life(Item(s.h.nextId, v), InFlight(t));
      LiveKnown(s, k);
      ThreadsClaim(s.threads, s.h.book, t, k, life.item);
      GuardsUntouched(s.guards, s.h.book, k, life);
      LiveMarked(s.disk.live, s.h.book, k, life);
      AccountClaim(s.h.book, k, life);
      HeadClaim(s.q.head, k, s.q.ackedAbove, s.h.head0, s.h.book, life);
    } else {
      ThreadsKept(s.threads, s'.threads, s.h.book);
    }
  }

  lemma CommitKeeps(s: State, t: nat, ok: bool)
    requires Inv(s) && Enabled(s, Commit(t, ok))
    ensures Inv(DoCommit(s, t, ok))
  {
    hide ThreadsMatch, GuardsMatch, LiveMatch, Exclusive, HeadMatch, Serial, Scans;
    OwnerKnown(s, t);
    var Claimed(k, item) := s.threads[t];
    var stage := if ok then Live else Broken(t);
    ThreadsTurn(s.threads, s.h.book, t, if ok then Stored(k, item) else Failed(k, item), stage);
    GuardsUntouched(s.guards, s.h.book, k, Life(item, stage));
    LiveMarked(s.disk.live, s.h.book, k, Life(item, stage));
    OwedMark(s.h.book, k, stage);
    HeadMark(s.q.head, s.q.tail, s.q.ackedAbove, s.h.head0, s.h.book, k, stage);
    ScansPut(s.calls, s.disk.live, s.q.reserved, k, item);
  }

  lemma GiveBackKeeps(s: State, t: nat)
    requires Inv(s) && Enabled(s, GiveBack(t))
    ensures Inv(DoGiveBack(s, t))
  {
    hide ThreadsMatch, GuardsMatch, LiveMatch, Exclusive, HeadMatch, Serial, Scans;
    OwnerKnown(s, t);
    var Failed(k, item) := s.threads[t];
    ThreadsTurn(s.threads, s.h.book, t, Owes(k, item), Void);
    GuardsUntouched(s.guards, s.h.book, k, Life(item, Void));
    LiveMarked(s.disk.live, s.h.book, k, Life(item, Void));
    AccountSettle(s.h.book, s.q.tail, k, Void);
    HeadMark(s.q.head, s.q.tail, s.q.ackedAbove, s.h.head0, s.h.book, k, Void);
  }

  lemma DeleteKeeps(s: State, g: nat, ok: bool)
    requires Inv(s) && Enabled(s, Delete(g, ok))
    ensures Inv(DoDelete(s, g, ok))
  {
    hide ThreadsMatch, GuardsMatch, LiveMatch, Exclusive, HeadMatch, Serial, Scans;
    GuardKnown(s, g);
    GuardStep(s, Delete(g, ok));
    BusyAlone(s.calls, s.guards, g, DoDelete(s, g, ok).guards[g]);
    if ok {
      var k, item := s.guards[g].no, s.guards[g].item;
      ThreadsLanded(s.threads, s.h.book, k, Removed(g));
      GuardsDelete(s.guards, s.h.book, s.q.reserved, g);
      LiveMarked(s.disk.live, s.h.book, k, Life(item, Removed(g)));
      OwedMark(s.h.book, k, Removed(g));
      HeadMark(s.q.head, s.q.tail, s.q.ackedAbove, s.h.head0, s.h.book, k, Removed(g));
      ScansNone(s.disk.live - {k}, s.q.reserved);
    } else {
      GuardsKept(s.guards, s.h.book, g, s.guards[g].(phase := Dropping));
    }
  }

  lemma SettleKeeps(s: State, g: nat)
    requires Inv(s) && Enabled(s, SettleAck(g))
    ensures Inv(DoSettleAck(s, g))
  {
    hide ThreadsMatch, GuardsMatch, LiveMatch, Exclusive, HeadMatch, Serial, Scans;
    GuardKnown(s, g);
    GuardStep(s, SettleAck(g));
    BusyAlone(s.calls, s.guards, g, DoSettleAck(s, g).guards[g]);
    var k, item := s.guards[g].no, s.guards[g].item;
    LiveKnown(s, k);
    ThreadsLanded(s.threads, s.h.book, k, Acked);
    GuardsSettle(s.guards, s.h.book, g);
    LiveMarked(s.disk.live, s.h.book, k, Life(item, Acked));
    AccountSettle(s.h.book, s.q.tail, k, Acked);
    HeadSettle(s.q, s.h.head0, s.h.book, k, |item.value|);
    ScansNone(s.disk.live, s.q.reserved - {k});
  }

  lemma BeginReserveKeeps(s: State, c: nat)
    requires Inv(s) && Allowed(s, BeginReserve(c), true)
    ensures Inv(Apply(s, BeginReserve(c)))
  {
    hide ThreadsMatch, GuardsMatch, LiveMatch, Exclusive, HeadMatch;
    ScanStarts(s.q, s.h.head0, s.disk.live, s.h.book);
  }

  lemma SeekKeeps(s: State, c: nat, ok: bool)
    requires Inv(s) && Enabled(s, Seek(c, ok))
    ensures Inv(DoSeek(s, c, ok))
  {
    hide ThreadsMatch, GuardsMatch, LiveMatch, Exclusive, HeadMatch, Serial;
    ScanFound(s.calls[c], s.disk.live, s.q.reserved);
    var s' := DoSeek(s, c, ok);
    if c in s'.calls {
      CallMoves(s.calls, s.guards, c, s'.calls[c]);
    } else {
      CallMoves(s.calls, s.guards, c, s.calls[c]);
    }
  }

  lemma TakeKeeps(s: State, c: nat, g: nat)
    requires Inv(s) && Enabled(s, Take(c, g))
    ensures Inv(DoTake(s, c, g))
  {
    hide ThreadsMatch, GuardsMatch, LiveMatch, Exclusive, HeadMatch, Serial;
    GuardStep(s, Take(c, g));
    var k := s.calls[c].no;
    assert CallOk(s.calls[c], s.disk.live, s.q.reserved);
    if k in s.q.reserved {
      ScanSkips(s.calls[c], s.disk.live, s.q.reserved);
      CallMoves(s.calls, s.guards, c, Seeking(k + 1, s.calls[c].avail, s.calls[c].seeks));
    } else {
      CallTakes(s.calls, s.guards, c, g, Guard(k, s.calls[c].item, Held));
      LiveKnown(s, k);
      GuardsKept(s.guards, s.h.book, g, Guard(k, s.calls[c].item, Held));
    }
  }

  lemma ReleaseKeeps(s: State, g: nat)
    requires Inv(s) && Allowed(s, Release(g), true)
    ensures Inv(Apply(s, Release(g)))
  {
    hide ThreadsMatch, LiveMatch, Exclusive, HeadMatch;
    GuardStep(s, Release(g));
    GuardsKept(s.guards, s.h.book, g, s.guards[g]);
    if s.guards[g].phase == Dropping {
      BusyAlone(s.calls, s.guards, g, s.guards[g]);
    } else {
      ScansNone(s.disk.live, s.q.reserved - {s.guards[g].no});
    }
  }

  lemma BeginAckKeeps(s: State, g: nat)
    requires Inv(s) && Allowed(s, BeginAck(g), true)
    ensures Inv(Apply(s, BeginAck(g)))
  {
    hide ThreadsMatch, LiveMatch, Exclusive, HeadMatch;
    GuardStep(s, BeginAck(g));
    GuardKnown(s, g);
    GuardsKept(s.guards, s.h.book, g, s.guards[g].(phase := Acking));
  }

  lemma NotifyAckKeeps(s: State, g: nat, w: Option<nat>)
    requires Inv(s) && Enabled(s, NotifyAck(g, w))
    ensures Inv(Apply(s, NotifyAck(g, w)))
  {
    hide ThreadsMatch, LiveMatch, Exclusive, HeadMatch, Serial, Scans;
    GuardStep(s, NotifyAck(g, w));
    GuardsKept(s.guards, s.h.book, g, s.guards[g]);
    BusyAlone(s.calls, s.guards, g, s.guards[g]);
    ThreadsKept(s.threads, Wake(s.threads, w), s.h.book);
  }

  /** Actions that move only threads owning no unsettled seq. */
  predicate Passive(a: Action) {
    a.Return? || a.NotifyRoom? || a.Close? || a.NotifyAll? || a.Spurious?
  }

  lemma PassiveKeeps(s: State, a: Action)
    requires Inv(s) && Enabled(s, a) && Passive(a)
    ensures Inv(Apply(s, a))
  {
    hide ThreadsMatch, GuardsMatch, LiveMatch, Exclusive, HeadMatch, Serial, Scans;
    ThreadsKept(s.threads, Apply(s, a).threads, s.h.book);
  }

  lemma StepKeeps(s: State, a: Action)
    requires Inv(s) && Allowed(s, a, true)
    ensures Inv(Apply(s, a))
  {
    hide BookInv, GuardInv, AccountInv, HeadInv, ScanInv;
    match a
    case Arrive(t, v, wait) => TryKeeps(s, t, v, wait);
    case Recheck(t) => TryKeeps(s, t, s.threads[t].value, true);
    case Commit(t, ok) => CommitKeeps(s, t, ok);
    case GiveBack(t) => GiveBackKeeps(s, t);
    case Delete(g, ok) => DeleteKeeps(s, g, ok);
    case SettleAck(g) => SettleKeeps(s, g);
    case BeginReserve(c) => BeginReserveKeeps(s, c);
    case Seek(c, ok) => SeekKeeps(s, c, ok);
    case Take(c, g) => TakeKeeps(s, c, g);
    case Release(g) => ReleaseKeeps(s, g);
    case BeginAck(g) => BeginAckKeeps(s, g);
    case NotifyAck(g, w) => NotifyAckKeeps(s, g, w);
    case _ => PassiveKeeps(s, a);
  }

  lemma {:induction false} RunKeeps(s: State, acts: seq<Action>)
    requires Inv(s) && CanRun(s, acts, true)
    ensures Inv(Run(s, acts, true))
    decreases acts
  {
    if acts != [] {
      StepKeeps(s, acts[0]);
      RunKeeps(Apply(s, acts[0]), acts[1..]);
    }
  }

  lemma ReachKeeps(s: State, acts: seq<Action>, s': State)
    requires Inv(s) && Reaches(s, acts, s', true)
    ensures Inv(s')
  {
    RunKeeps(s, acts);
  }
}
