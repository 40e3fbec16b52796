/** The queue's promises, over every interleaving of one consumer and any number of producers. */
module Theorems {
  import opened Base
  import opened Protocol
  import opened Invariants

  // ---- opening ----

  lemma TopOf(entries: map<nat, Bytes>)
    ensures var q := Recovered(entries); forall k :: k in entries ==> q.head <= k < q.tail
    ensures Recovered(entries).head <= Recovered(entries).tail
  {
    if entries != map[] {
      assert entries.Keys != {};
    }
  }

  lemma OpenKeeps(cfg: Config, disk: Disk, h: History)
    ensures Inv(Open(cfg, disk, h))
  {
    OpenBook(cfg, disk, h);
    OpenCursors(cfg, disk, h);
    hide BookInv, GuardInv, AccountInv, HeadInv;
  }

  /** A session begins with the store as given, nobody in it, and cursors and counters from the keys alone. */
  lemma OpenMeans(cfg: Config, disk: Disk, h: History)
    ensures var s, keys := Open(cfg, disk, h), disk.live.Keys;
            && s.cfg == cfg && s.disk == disk && s.threads == map[] && s.guards == map[] && s.calls == map[]
            && s.q.len == |keys| && s.q.bytes == SumTo(Values(disk.live), s.q.tail)
            && (if keys == {} then s.q.head == s.q.tail == 0 else s.q.head == Min(keys) && s.q.tail == Max(keys) + 1)
            && s.q.ackedAbove == {} && s.q.reserved == {} && !s.q.closed
            && s.h.head0 == s.q.head && s.h.len0 == s.q.len && s.h.bytes0 == s.q.bytes
            && s.h.book == (map k | k in disk.live :: Life(disk.live[k], Live))
            && s.h.nextId == h.nextId && s.h.promised == h.promised && s.h.deleted == h.deleted
            && s.h.gone == h.gone && s.h.synced == h.synced && s.h.refused == h.refused
  {
    assert Values(disk.live) == map[] <==> disk.live.Keys == {};
  }

  lemma OpenBook(cfg: Config, disk: Disk, h: History)
    ensures var s := Open(cfg, disk, h); BookInv(s) && AccountInv(s)
  {
    var s := Open(cfg, disk, h);
    TopOf(Values(disk.live));
    assert Owed(s.h.book) == Values(disk.live);
  }

  lemma OpenCursors(cfg: Config, disk: Disk, h: History)
    ensures var s := Open(cfg, disk, h); HeadInv(s) && GuardInv(s)
  {
    var s := Open(cfg, disk, h);
    TopOf(Values(disk.live));
    assert forall k: nat :: !IsAcked(s.h.book, k);
    assert forall g, k :: !Holds(s.guards, g, k);
  }

  // ---- conservation ----

  function ClaimedSeqs(s: State): set<nat> {
    set t | t in s.threads && s.threads[t].Claimed? :: s.threads[t].no
  }

  function FailedSeqs(s: State): set<nat> {
    set t | t in s.threads && s.threads[t].Failed? :: s.threads[t].no
  }

  function DeletedSeqs(s: State): set<nat> {
    set g | g in s.guards && s.guards[g].phase == Deleted :: s.guards[g].no
  }

  /** The seqs at one stage, by the thread, guard or entry that holds them. */
  lemma Classes(s: State)
    requires BookInv(s)
    ensures s.disk.live.Keys == set k | k in s.h.book && s.h.book[k].stage.Live?
    ensures ClaimedSeqs(s) == set k | k in s.h.book && s.h.book[k].stage.InFlight?
    ensures FailedSeqs(s) == set k | k in s.h.book && s.h.book[k].stage.Broken?
    ensures DeletedSeqs(s) == set k | k in s.h.book && s.h.book[k].stage.Removed?
  {
    forall k | k in s.h.book
      ensures s.h.book[k].stage.InFlight? ==> k in ClaimedSeqs(s)
      ensures s.h.book[k].stage.Broken? ==> k in FailedSeqs(s)
      ensures s.h.book[k].stage.Removed? ==> k in DeletedSeqs(s)
    {
      match s.h.book[k].stage
      case InFlight(t) => assert s.threads[t].no in ClaimedSeqs(s);
      case Broken(t) => assert s.threads[t].no in FailedSeqs(s);
      case Removed(g) => assert s.guards[g].no in DeletedSeqs(s);
      case _ =>
    }
  }

  lemma OwedParts(book: map<nat, Life>)
    ensures var l, c, f, d := set k | k in book && book[k].stage.Live?, set k | k in book && book[k].stage.InFlight?,
                              set k | k in book && book[k].stage.Broken?, set k | k in book && book[k].stage.Removed?;
            && l !! c !! f !! d && Owed(book).Keys == l + c + f + d && |Owed(book)| == |l| + |c| + |f| + |d|
  {
    var l, c, f, d := set k | k in book && book[k].stage.Live?, set k | k in book && book[k].stage.InFlight?,
                      set k | k in book && book[k].stage.Broken?, set k | k in book && book[k].stage.Removed?;
    assert Owed(book).Keys == l + c + f + d;
    FourParts(l, c, f, d);
  }

  /**
   `len` counts, and `bytes` weighs, exactly the live entries, the claimed pushes still
   committing, the failed pushes not given back and the deleted entries not settled; no
   seq is two of these at once.
   */
  lemma Conservation(s: State)
    requires Inv(s)
    ensures var live, claimed, failed, deleted := s.disk.live.Keys, ClaimedSeqs(s), FailedSeqs(s), DeletedSeqs(s);
            && live !! claimed !! failed !! deleted
            && Owed(s.h.book).Keys == live + claimed + failed + deleted
            && s.q.len == |live| + |claimed| + |failed| + |deleted|
            && s.q.bytes == SumTo(Owed(s.h.book), s.q.tail)
  {
    Classes(s);
    hide GuardInv, HeadInv, ScanInv, BookInv, ClaimedSeqs, FailedSeqs, DeletedSeqs;
    OwedParts(s.h.book);
  }

  /** The bytes `Conservation` sums are the bytes stored, or carried by the thread or guard. */
  lemma ConservedBytes(s: State)
    requires Inv(s)
    ensures var owed := Owed(s.h.book);
            && (forall k :: k in s.disk.live ==> k in owed && owed[k] == s.disk.live[k].value)
            && (forall t | t in s.threads && (s.threads[t].Claimed? || s.threads[t].Failed?) ::
                  s.threads[t].no in owed && owed[s.threads[t].no] == s.threads[t].item.value)
            && (forall g | g in s.guards && s.guards[g].phase == Deleted ::
                  s.guards[g].no in owed && owed[s.guards[g].no] == s.guards[g].item.value)
  {
    hide Exclusive, HeadMatch, Serial, Scans;
  }

  /** No counter underflows, and an empty queue weighs nothing. */
  lemma NoUnderflow(s: State)
    requires Inv(s)
    ensures 0 <= s.q.len && 0 <= s.q.bytes
    ensures s.q.len == 0 ==> s.q.bytes == 0
    ensures forall t | t in s.threads && s.threads[t].Failed? ::
      1 <= s.q.len && |s.threads[t].item.value| <= s.q.bytes
    ensures forall g | g in s.guards && s.guards[g].phase == Deleted ::
      1 <= s.q.len && |s.guards[g].item.value| <= s.q.bytes
  {
    hide Exclusive, HeadMatch, Serial, Scans, GuardsMatch, ThreadsMatch, LiveMatch;
    var owed := Owed(s.h.book);
    if s.q.len == 0 {
      assert owed == map[];
      SumToEmpty(s.q.tail);
    }
    forall t | t in s.threads && s.threads[t].Failed?
      ensures 1 <= s.q.len && |s.threads[t].item.value| <= s.q.bytes
    {
      OwnerKnown(s, t);
      assert s.threads[t].no in owed;
      SumToCovers(owed, s.threads[t].no, s.q.tail);
    }
    forall g | g in s.guards && s.guards[g].phase == Deleted
      ensures 1 <= s.q.len && |s.guards[g].item.value| <= s.q.bytes
    {
      GuardKnown(s, g);
      assert s.guards[g].no in owed;
      SumToCovers(owed, s.guards[g].no, s.q.tail);
    }
  }

  // ---- the head cursor ----

  /**
   `head` is the first seq from `head0` on that has not been acked, `ackedAbove` holds the
   acked seqs beyond it, and nothing live, claimed, failed or being deleted is below `head`.
   */
  lemma HeadIsFirstUnacked(s: State)
    requires Inv(s)
    ensures forall k: nat :: s.h.head0 <= k < s.q.head ==> IsAcked(s.h.book, k)
    ensures !IsAcked(s.h.book, s.q.head)
    ensures s.q.ackedAbove == set k | k in s.h.book && IsAcked(s.h.book, k) && s.q.head < k
    ensures forall k | k in s.h.book && !IsAcked(s.h.book, k) :: s.q.head <= k < s.q.tail
  {
    hide Exclusive, Serial, Scans, GuardsMatch, ThreadsMatch, LiveMatch;
  }

  /** So `head` never passes a live entry, a seq being committed, or one on an outstanding guard. */
  lemma HeadPassesNothing(s: State)
    requires Inv(s)
    ensures forall k :: k in s.disk.live ==> s.q.head <= k < s.q.tail
    ensures forall t | t in s.threads && (s.threads[t].Claimed? || s.threads[t].Failed?) ::
      s.q.head <= s.threads[t].no < s.q.tail
    ensures forall g | g in s.guards && s.guards[g].phase != Settled ::
      s.q.head <= s.guards[g].no < s.q.tail
  {
    HeadIsFirstUnacked(s);
    hide Exclusive, Serial, Scans, HeadMatch;
  }

  // ---- guards ----

  /** Without assuming a single consumer: reserved is the seqs of the guards, one guard each. */
  lemma ReservedExactly(s: State)
    requires GuardInv(s)
    ensures s.q.reserved == set g | g in s.guards && s.guards[g].phase != Settled :: s.guards[g].no
    ensures forall g, g' | g in s.guards && g' in s.guards && g != g' && s.guards[g].phase != Settled
                           && s.guards[g'].phase != Settled :: s.guards[g].no != s.guards[g'].no
  {
    forall k | k in s.q.reserved
      ensures exists g :: g in s.guards && s.guards[g].phase != Settled && s.guards[g].no == k
    {
      var g :| Holds(s.guards, g, k);
    }
    forall g, g' | g in s.guards && g' in s.guards && g != g' && s.guards[g].phase != Settled
                   && s.guards[g'].phase != Settled
      ensures s.guards[g].no != s.guards[g'].no
    {
      assert Holds(s.guards, g, s.guards[g].no) && Holds(s.guards, g', s.guards[g'].no);
    }
    forall g | g in s.guards && s.guards[g].phase != Settled
      ensures s.guards[g].no in s.q.reserved
    {
      assert Holds(s.guards, g, s.guards[g].no);
    }
  }

  lemma {:induction false} GuardRun(s: State, acts: seq<Action>)
    requires GuardInv(s) && CanRun(s, acts, false)
    ensures GuardInv(Run(s, acts, false))
    decreases acts
  {
    if acts != [] {
      hide GuardInv;
      GuardStep(s, acts[0]);
      GuardRun(Apply(s, acts[0]), acts[1..]);
    }
  }

  /** A guard that is nacked, dropped, or whose delete failed leaves its entry live and reservable. */
  lemma ReleasedIsReservable(s: State, g: nat)
    requires Inv(s) && Allowed(s, Release(g), true)
    ensures var s' := Apply(s, Release(g)); var k := s.guards[g].no;
            && k in Reservable(s') && s'.disk.live[k] == s.guards[g].item
            && s'.q.(reserved := s.q.reserved) == s.q && s'.disk == s.disk
  {
    hide Inv, OneConsumer;
    GuardIsLive(s, g);
  }

  /** What a guard not yet deleted holds is in the store. */
  lemma GuardIsLive(s: State, g: nat)
    requires Inv(s) && g in s.guards && s.guards[g].phase != Deleted && s.guards[g].phase != Settled
    ensures s.guards[g].no in s.disk.live && s.disk.live[s.guards[g].no] == s.guards[g].item
  {
    GuardKnown(s, g);
    LiveKnown(s, s.guards[g].no);
  }

  // ---- the life of a seq ----

  predicate Follows(a: Stage, b: Stage) {
    || a == b
    || (a.InFlight? && (b.Live? || b.Broken?))
    || (a.Broken? && b.Void?)
    || (a.Live? && b.Removed?)
    || (a.Removed? && b.Acked?)
  }

  lemma TailUnclaimed(s: State)
    requires Inv(s)
    ensures s.q.tail !in s.h.book && s.q.tail !in s.disk.live
  {
    hide ThreadsMatch, GuardsMatch, Exclusive, HeadMatch, Serial, Scans;
  }

  /** The only ways a step moves the ledger. */
  ghost predicate LedgerMoves(s: State, a: Action, s': State) {
    var book, book' := s.h.book, s'.h.book;
    match a
    case Arrive(_, _, _) => book' == book || (exists l: Life :: book' == book[s.q.tail := l] && l.stage.InFlight?)
    case Recheck(_) => book' == book || (exists l: Life :: book' == book[s.q.tail := l] && l.stage.InFlight?)
    case Commit(t, ok) => t in s.threads && s.threads[t].Claimed? && book' == Mark(book, s.threads[t].no, if ok then Live else Broken(t))
    case GiveBack(t) => t in s.threads && s.threads[t].Failed? && book' == Mark(book, s.threads[t].no, Void)
    case Delete(g, ok) => g in s.guards && book' == if ok then Mark(book, s.guards[g].no, Removed(g)) else book
    case SettleAck(g) => g in s.guards && book' == Mark(book, s.guards[g].no, Acked)
    case _ => book' == book
  }

  lemma LedgerStep(s: State, a: Action)
    requires Enabled(s, a)
    ensures LedgerMoves(s, a, Apply(s, a)) && s.q.tail <= Apply(s, a).q.tail
  {
    hide Admits, Mark, Jump, Wake, Rouse, Put, Erase, LeastFrom;
    match a
    case Arrive(t, v, wait) => var life := Life(Item(s.h.nextId, v), InFlight(t));
    case _ =>
  }

  /** One step moves a seq at most one stage on, never back, and never changes what was pushed. */
  lemma OneWay(s: State, a: Action, k: nat)
    requires Inv(s) && Enabled(s, a)
    ensures var book, book' := s.h.book, Apply(s, a).h.book;
            && (k in book ==> k in book' && book'[k].item == book[k].item && Follows(book[k].stage, book'[k].stage))
            && (k !in book && k in book' ==> k == s.q.tail && book'[k].stage.InFlight?)
  {
    hide Inv, Apply;
    TailUnclaimed(s);
    LedgerStep(s, a);
    match a
    case Commit(t, ok) => OwnerKnown(s, t);
    case GiveBack(t) => OwnerKnown(s, t);
    case Delete(g, ok) => GuardKnown(s, g);
    case SettleAck(g) => GuardKnown(s, g);
    case _ =>
  }

  /** How often a run successfully puts, successfully deletes, and settles an ack for seq `k`. */
  function Puts(s: State, acts: seq<Action>, k: nat): nat
    requires CanRun(s, acts, true)
    decreases acts
  {
    if acts == [] then 0
    else
      One(acts[0].Commit? && acts[0].ok && s.threads[acts[0].t].no == k)
      + Puts(Apply(s, acts[0]), acts[1..], k)
  }

  function Acks(s: State, acts: seq<Action>, k: nat): nat
    requires CanRun(s, acts, true)
    decreases acts
  {
    if acts == [] then 0
    else
      One(acts[0].SettleAck? && s.guards[acts[0].g].no == k)
      + Acks(Apply(s, acts[0]), acts[1..], k)
  }

  function Claims(s: State, acts: seq<Action>, k: nat): nat
    requires CanRun(s, acts, true)
    decreases acts
  {
    if acts == [] then 0
    else
      One(s.q.tail == k && Apply(s, acts[0]).q.tail == k + 1)
      + Claims(Apply(s, acts[0]), acts[1..], k)
  }

  predicate HasLanded(s: State, k: nat) {
    k in s.h.book && Landed(s.h.book[k].stage)
  }

  /** In any run each seq is claimed, put and acked at most once, and not again if it already was. */
  lemma {:induction false} AtMostOnce(s: State, acts: seq<Action>, k: nat)
    requires Inv(s) && CanRun(s, acts, true)
    ensures Claims(s, acts, k) + One(k < s.q.tail) <= 1
    ensures Puts(s, acts, k) + One(HasLanded(s, k)) <= 1
    ensures Acks(s, acts, k) + One(IsAcked(s.h.book, k)) <= 1
    decreases acts
  {
    if acts != [] {
      hide Inv;
      var s' := Apply(s, acts[0]);
      StepKeeps(s, acts[0]);
      AtMostOnce(s', acts[1..], k);
      OnceStep(s, acts[0], k);
    }
  }

  lemma OnceStep(s: State, a: Action, k: nat)
    requires Inv(s) && Allowed(s, a, true)
    ensures var s' := Apply(s, a);
            && One(k < s.q.tail) + One(s.q.tail == k && s'.q.tail == k + 1) <= One(k < s'.q.tail)
            && One(HasLanded(s, k)) + One(a.Commit? && a.ok && s.threads[a.t].no == k) <= One(HasLanded(s', k))
            && One(IsAcked(s.h.book, k)) + One(a.SettleAck? && s.guards[a.g].no == k) <= One(IsAcked(s'.h.book, k))
  {
    hide Inv, Apply;
    OneWay(s, a, k);
    LedgerStep(s, a);
    match a
    case Commit(t, ok) => OwnerKnown(s, t);
    case SettleAck(g) => GuardKnown(s, g);
    case _ => hide OneConsumer;
  }

  // ---- bounds ----

  function Larger(a: int, b: int): int { if a > b then a else b }

  predicate LenBounded(s: State) {
    s.q.len <= Larger(s.cfg.capacity, s.h.len0)
  }

  /** `bytes` within its bound or what was recovered, or one item is outstanding. */
  predicate BytesBounded(s: State) {
    s.q.bytes <= Larger(s.cfg.maxBytes, s.h.bytes0) || (s.q.len == 1 && s.q.bytes <= USIZE_MAX)
  }

  /** The only ways a step moves the counters: admit a value, or settle one item. */
  lemma CountersMove(s: State, a: Action)
    requires Enabled(s, a)
    ensures var s' := Apply(s, a);
            && s'.cfg == s.cfg && s'.h.len0 == s.h.len0 && s'.h.bytes0 == s.h.bytes0
            && (|| (s'.q.len == s.q.len && s'.q.bytes == s.q.bytes)
                || (s'.q.len == s.q.len - 1 && s'.q.bytes <= s.q.bytes)
                || exists v: nat :: !s.q.closed && v <= USIZE_MAX && Admits(s.cfg, s.q.len, s.q.bytes, v)
                                    && s'.q.len == s.q.len + 1 && s'.q.bytes == s.q.bytes + v)
            && (s.q.closed ==> s'.q.closed)
  {
    match a
    case Arrive(t, v, wait) => assert s.q.bytes + |v| == s.q.bytes + |v|;
    case Recheck(t) => assert |s.threads[t].value| <= USIZE_MAX;
    case _ =>
  }

  /** No run takes `len` past capacity or what was recovered, whatever the byte bound and however many consumers. */
  lemma {:induction false} LenRun(s: State, acts: seq<Action>, serial: bool)
    requires LenBounded(s) && CanRun(s, acts, serial)
    ensures LenBounded(Run(s, acts, serial))
    decreases acts
  {
    if acts != [] {
      CountersMove(s, acts[0]);
      hide Enabled, Apply, OneConsumer;
      LenRun(Apply(s, acts[0]), acts[1..], serial);
    }
  }

  lemma BytesStep(s: State, a: Action)
    requires Inv(s) && BytesBounded(s) && Allowed(s, a, true) && s.cfg.maxBytes < USIZE_MAX
    ensures BytesBounded(Apply(s, a)) && Apply(s, a).cfg == s.cfg && Apply(s, a).h.bytes0 == s.h.bytes0
  {
    hide BookInv, GuardInv, AccountInv, HeadInv, ScanInv;
    NoUnderflow(s);
    StepKeeps(s, a);
    NoUnderflow(Apply(s, a));
    CountersMove(s, a);
    hide Enabled, Apply;
  }

  /**
   Under a byte bound no run takes `bytes` past it, unless a single item is outstanding, so
   the byte counter never reaches `usize::MAX` and the saturating test equals the exact one.
   */
  lemma {:induction false} BytesRun(s: State, acts: seq<Action>)
    requires Inv(s) && BytesBounded(s) && CanRun(s, acts, true) && s.cfg.maxBytes < USIZE_MAX
    ensures BytesBounded(Run(s, acts, true))
    ensures Run(s, acts, true).cfg == s.cfg && Run(s, acts, true).h.bytes0 == s.h.bytes0
    decreases acts
  {
    hide Inv, BytesBounded;
    if acts != [] {
      BytesStep(s, acts[0]);
      StepKeeps(s, acts[0]);
      BytesRun(Apply(s, acts[0]), acts[1..]);
    }
  }

  lemma ExactAdmission(s: State, v: nat)
    requires Inv(s) && BytesBounded(s) && s.cfg.maxBytes < USIZE_MAX && s.h.bytes0 <= USIZE_MAX
    ensures 0 <= s.q.bytes <= USIZE_MAX
    ensures Admits(s.cfg, s.q.len, s.q.bytes, v) <==>
            s.q.len < s.cfg.capacity && (s.q.len == 0 || s.q.bytes + v <= s.cfg.maxBytes)
  {
    NoUnderflow(s);
    hide Inv;
  }

  // ---- recovery ----

  predicate Quiescent(s: State) {
    && (forall t :: t in s.threads ==> !s.threads[t].Claimed? && !s.threads[t].Failed?)
    && (forall g :: g in s.guards ==> s.guards[g].phase != Deleted)
  }

  lemma QuiescentOwed(s: State)
    requires BookInv(s) && Quiescent(s)
    ensures Owed(s.h.book) == Values(s.disk.live)
  {
  }

  /** What `open` would derive from the store agrees with the running queue when nothing is in flight. */
  lemma RecoveryAgrees(s: State)
    requires Inv(s) && Quiescent(s)
    ensures var r := Recovered(Values(s.disk.live));
            && r.len == s.q.len && r.bytes == s.q.bytes
            && (s.disk.live != map[] ==> s.q.head <= r.head && r.tail <= s.q.tail)
  {
    hide BookInv, GuardInv, HeadInv, ScanInv;
    QuiescentOwed(s);
    HeadPassesNothing(s);
    var entries := Values(s.disk.live);
    var r := Recovered(entries);
    TopOf(entries);
    assert s.disk.live != map[] ==> entries.Keys != {};
    SumToBeyond(entries, r.tail, s.q.tail);
  }

  // ---- reserve, with producers committing between its steps ----

  /**
   The entry a `reserve` hands out is live, carries the bytes pushed for its seq, and is no
   larger than any entry that was live and unreserved when the call began.
   */
  lemma ReserveTakesOldest(s: State, c: nat, g: nat)
    requires Inv(s) && Enabled(s, Take(c, g)) && s.calls[c].no !in s.q.reserved
    ensures var guard := Apply(s, Take(c, g)).guards[g];
            && guard.no in Reservable(s)
            && Lookup(s.h.book, guard.no) == Some(Life(guard.item, Live))
            && s.disk.live[guard.no] == guard.item
            && forall k :: k in s.calls[c].avail ==> guard.no <= k
  {
    LiveKnown(s, s.calls[c].no);
    assert CallOk(s.calls[c], s.disk.live, s.q.reserved);
  }

  /** A `reserve` that finds nothing began when nothing was live and unreserved. */
  lemma ReserveNoneIsEmpty(s: State, c: nat)
    requires Inv(s) && Enabled(s, Seek(c, true)) && c !in Apply(s, Seek(c, true)).calls
    ensures s.calls[c].avail == {}
  {
    hide Exclusive, HeadMatch, Serial, BookInv;
    ScanFound(s.calls[c], s.disk.live, s.q.reserved);
  }

  /** The entries a call could hand out when it began are still live and unreserved while it runs. */
  lemma ReserveKeepsCandidates(s: State, c: nat)
    requires Inv(s) && c in s.calls
    ensures s.calls[c].avail <= Reservable(s)
    ensures s.calls[c].seeks + One(s.calls[c].Seeking?) <= |s.q.reserved| + 1
  {
    assert CallOk(s.calls[c], s.disk.live, s.q.reserved);
  }

  // ---- drained is terminal ----

  lemma DrainedStep(s: State, a: Action)
    requires Inv(s) && s.q.closed && s.q.len == 0 && Allowed(s, a, true)
    ensures Apply(s, a).q.closed && Apply(s, a).q.len == 0
  {
    hide Inv, Enabled, OneConsumer, Apply;
    StepKeeps(s, a);
    NoUnderflow(Apply(s, a));
    CountersMove(s, a);
  }

  lemma DrainedMeans(s: State)
    requires Inv(s) && s.q.closed && s.q.len == 0
    ensures s.disk.live == map[]
    ensures forall t :: t in s.threads ==> !s.threads[t].Claimed? && !s.threads[t].Failed?
    ensures forall g :: g in s.guards ==> s.guards[g].phase == Settled
    ensures forall c, ok :: Enabled(s, Seek(c, ok)) ==> c !in Apply(s, Seek(c, ok)).calls
  {
    hide BookInv, GuardInv, HeadInv, ScanInv, AccountInv;
    forall g | g in s.guards && s.guards[g].phase != Settled
      ensures s.guards[g].no in Owed(s.h.book)
    {
      GuardKnown(s, g);
    }
    ConservedBytes(s);
    Conservation(s);
    assert Owed(s.h.book).Keys == {};
    hide Inv;
  }

  /** Once drained, a queue stays drained and empty for the rest of any run. */
  lemma {:induction false} DrainedForGood(s: State, acts: seq<Action>)
    requires Inv(s) && s.q.closed && s.q.len == 0 && CanRun(s, acts, true)
    ensures var s' := Run(s, acts, true); s'.q.closed && s'.q.len == 0 && s'.disk.live == map[]
    decreases acts
  {
    if acts == [] {
      DrainedMeans(s);
    } else {
      hide Inv;
      DrainedStep(s, acts[0]);
      StepKeeps(s, acts[0]);
      DrainedForGood(Apply(s, acts[0]), acts[1..]);
    }
  }
}
