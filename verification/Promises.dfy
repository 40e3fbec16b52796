/**
 The promises, in every state that any history can reach: any number of sessions, each
 ended by a power loss or a reopen at any step, any number of producers, with or without
 group commit.
 */
module Promises {
  import opened Base
  import opened Protocol
  import opened Invariants
  import opened Theorems
  import opened Group
  import opened GroupRefines
  import opened Sessions
  import opened Reopens
  import opened GroupOnce
  import opened Calls
  import opened Wakeups

  /** A push that returned Ok under a durable policy is stored, byte for byte, until a delete of it takes effect. */
  lemma NothingIsLost(g: GState, i: Item)
    requires Reachable(g) && i in g.base.h.promised && i.id !in g.base.h.deleted
    ensures exists k :: k in g.base.disk.live && g.base.disk.live[k] == i
    ensures i in g.base.h.synced
  {
    hide Happens, After, GInv, Inv, Abs, Open;
    var cfg, events :| Built(cfg) && Happens(Start(cfg), events) && After(Start(cfg), events) == g;
    Beginning(cfg);
    AtLeastOnce(Start(cfg), events);
  }

  /**
   `len` and `bytes` count each live, claimed, failed and deleted-but-unsettled item once:
   no seq is two of these, and the bytes counted for it are those stored, or carried by its
   thread or guard.
   */
  lemma CountersAreExact(g: GState)
    requires Reachable(g)
    ensures var s := Abs(g); var owed := Owed(s.h.book);
            var live, claimed, failed, deleted := s.disk.live.Keys, ClaimedSeqs(s), FailedSeqs(s), DeletedSeqs(s);
            && live !! claimed !! failed !! deleted
            && owed.Keys == live + claimed + failed + deleted
            && s.q.len == |live| + |claimed| + |failed| + |deleted|
            && s.q.bytes == SumTo(owed, s.q.tail)
            && (s.q.len == 0 ==> s.q.bytes == 0)
    ensures WeighsWhatItHolds(Abs(g)) && g.base.q == Abs(g).q
  {
    hide Reachable, GInv, Inv, DurInv, ClaimedSeqs, FailedSeqs, DeletedSeqs, Owed, Abs, WeighsWhatItHolds;
    ReachableIsSound(g);
    AbsKeepsQueue(g);
    Conservation(Abs(g));
    NoUnderflow(Abs(g));
    Weighs(Abs(g));
  }

  lemma Weighs(s: State)
    requires Inv(s)
    ensures WeighsWhatItHolds(s)
  {
    ConservedBytes(s);
    hide Inv, Owed;
  }

  /** The bytes counted for a seq are those of the entry, thread or guard that holds it. */
  predicate WeighsWhatItHolds(s: State) {
    var owed := Owed(s.h.book);
    && (forall k :: k in s.disk.live ==> Lookup(owed, k) == Some(s.disk.live[k].value))
    && (forall t | t in s.threads && (s.threads[t].Claimed? || s.threads[t].Failed?) ::
          Lookup(owed, s.threads[t].no) == Some(s.threads[t].item.value))
    && (forall x | x in s.guards && s.guards[x].phase == Deleted ::
          Lookup(owed, s.guards[x].no) == Some(s.guards[x].item.value))
  }

  /** `head` is the first seq not acked, `ackedAbove` the acked ones beyond it, and nothing unacked is below `head`. */
  lemma HeadIsExact(g: GState)
    requires Reachable(g)
    ensures var q, h := g.base.q, g.base.h;
            && (forall k: nat :: h.head0 <= k < q.head ==> IsAcked(h.book, k))
            && !IsAcked(h.book, q.head)
            && (forall k :: k in q.ackedAbove <==> IsAcked(h.book, k) && q.head < k)
            && (forall k | k in h.book && !IsAcked(h.book, k) :: q.head <= k < q.tail)
  {
    hide Reachable, GInv, Inv, DurInv;
    ReachableIsSound(g);
    HeadIsFirstUnacked(Abs(g));
  }

  /** `head` passes no entry, no push on its way and no guard. */
  lemma HeadIsBehind(g: GState)
    requires Reachable(g)
    ensures var q, threads, guards := g.base.q, g.base.threads, g.base.guards;
            && (forall k :: k in g.base.disk.live ==> q.head <= k < q.tail)
            && (forall t | t in Abs(g).threads && (Abs(g).threads[t].Claimed? || Abs(g).threads[t].Failed?) ::
                  q.head <= Abs(g).threads[t].no < q.tail)
            && (forall x | x in guards && guards[x].phase != Settled :: q.head <= guards[x].no < q.tail)
  {
    hide Reachable, GInv, Inv, DurInv;
    ReachableIsSound(g);
    HeadPassesNothing(Abs(g));
    AbsKeepsQueue(g);
    hide Abs;
  }

  /** A guard given up leaves its entry live, with its bytes, and reservable; every counter stays. */
  lemma ReleaseRestores(g: GState, x: nat)
    requires Reachable(g) && GAllowed(g, Plain(Release(x)), true)
    ensures var g' := GApply(g, Plain(Release(x))); var k := g.base.guards[x].no;
            && k in Reservable(g'.base) && g'.base.disk == g.base.disk && g'.base.disk.live[k] == g.base.guards[x].item
            && g'.base.q.(reserved := g.base.q.reserved) == g.base.q
  {
    hide Reachable, GInv, Inv, DurInv;
    ReachableIsSound(g);
    AbsKeepsQueue(g);
    hide Abs;
    ReleasedIsReservable(Abs(g), x);
  }

  /** `reserve` hands out a live entry no larger than any that was live and unreserved when it began. */
  lemma HandsOutOldest(g: GState, c: nat, x: nat)
    requires Reachable(g) && GAllowed(g, Plain(Take(c, x)), true) && g.base.calls[c].no !in g.base.q.reserved
    ensures var guard := GApply(g, Plain(Take(c, x))).base.guards[x];
            && guard.no in Reservable(g.base) && g.base.disk.live[guard.no] == guard.item
            && guard.no in g.base.h.book && g.base.h.book[guard.no].item == guard.item
            && forall k :: k in g.base.calls[c].avail ==> guard.no <= k
  {
    hide Reachable, GInv, Inv, DurInv;
    ReachableIsSound(g);
    AbsKeepsQueue(g);
    hide Abs;
    ReserveTakesOldest(Abs(g), c, x);
  }

  /**
   `reserve` finds nothing only when nothing was live and unreserved as it began. With the
   seek it is about to make, a call has made at most one more than there are reserved seqs.
   */
  lemma NoneMeansEmpty(g: GState, c: nat)
    requires Reachable(g) && GAllowed(g, Plain(Seek(c, true)), true)
    ensures g.base.calls[c].avail <= Reservable(g.base)
    ensures g.base.calls[c].seeks + 1 <= |g.base.q.reserved| + 1
    ensures c !in GApply(g, Plain(Seek(c, true))).base.calls ==> g.base.calls[c].avail == {}
  {
    hide Reachable, GInv, Inv, DurInv;
    ReachableIsSound(g);
    AbsKeepsQueue(g);
    hide Abs;
    ReserveKeepsCandidates(Abs(g), c);
    if c !in GApply(g, Plain(Seek(c, true))).base.calls {
      ReserveNoneIsEmpty(Abs(g), c);
    }
  }

  /** With nothing in flight, what `open` would derive agrees with the running queue. */
  lemma RecoveryIsExact(g: GState)
    requires Reachable(g) && Quiescent(Abs(g))
    ensures var r := Recovered(Values(g.base.disk.live));
            && r.len == g.base.q.len && r.bytes == g.base.q.bytes
            && (g.base.disk.live != map[] ==> g.base.q.head <= r.head && r.tail <= g.base.q.tail)
  {
    hide Reachable, GInv, Inv, DurInv, Quiescent, Recovered;
    ReachableIsSound(g);
    AbsKeepsQueue(g);
    hide Abs;
    RecoveryAgrees(Abs(g));
  }

  /** A drained queue is empty, with nothing on its way and nothing left to reserve. */
  lemma DrainedIsEmpty(g: GState)
    requires Reachable(g) && g.base.q.closed && g.base.q.len == 0
    ensures g.base.disk.live == map[]
    ensures forall t :: t in Abs(g).threads ==> !Abs(g).threads[t].Claimed? && !Abs(g).threads[t].Failed?
    ensures forall c :: GEnabled(g, Plain(Seek(c, true))) ==> c !in GApply(g, Plain(Seek(c, true))).base.calls
  {
    hide Reachable, GInv, Inv, DurInv;
    ReachableIsSound(g);
    AbsKeepsQueue(g);
    hide Abs;
    DrainedMeans(Abs(g));
    forall c | GEnabled(g, Plain(Seek(c, true)))
      ensures c !in GApply(g, Plain(Seek(c, true))).base.calls
    {
      assert Enabled(Abs(g), Seek(c, true));
    }
  }

  /** Inside group commit every caller is accounted for, once, and nobody waits without a leader. */
  lemma CallersAreOwned(g: GState)
    requires Reachable(g)
    ensures Awaiting(g) == Nos(g.grp.pending) + Nos(Batch(g.gpc)) + g.grp.done.Keys
    ensures Nos(g.grp.pending) !! Nos(Batch(g.gpc)) !! g.grp.done.Keys
    ensures g.grp.flushing <==> exists l :: l in g.gpc && Leads(g.gpc[l])
    ensures forall l, l' | l in g.gpc && l' in g.gpc && Leads(g.gpc[l]) && Leads(g.gpc[l']) :: l == l'
    ensures g.grp.pending != [] ==> g.grp.flushing
    ensures (forall t :: t in g.gpc ==> g.gpc[t].Retrying?) ==> g.grp == GroupState([], false, map[])
  {
    hide Reachable, GInv, Inv, DurInv, Abs;
    ReachableIsSound(g);
    Ownership(g);
    if forall t :: t in g.gpc ==> g.gpc[t].Retrying? {
      NothingLeftBehind(g);
    }
  }

  /**
   A caller inside group commit has its outcome by the second batch recorded after it joined;
   until then its entry is pending or in flight, behind a leader. A leader that records finds
   its own outcome.
   */
  lemma CallersGetOutcomes(g: GState, t: nat)
    requires Reachable(g) && t in g.gpc && Inside(g, t) && !g.gpc[t].Retrying?
    ensures var n := g.base.threads[t].no;
            && n in g.joined
            && (g.joined[n].at + 2 <= g.batches ==> n in g.grp.done)
            && (g.gpc[t] == Waiting(true) ==> g.grp.flushing && n in Nos(g.grp.pending) + Nos(Batch(g.gpc)))
            && (g.gpc[t].Recording? ==> n in RecordAll(g.grp.done, g.gpc[t].batch, g.gpc[t].ok))
  {
    hide Reachable, GInv, Inv, DurInv, Abs;
    ReachableIsSound(g);
    CallerKnown(g, t);
    if g.joined[g.base.threads[t].no].at + 2 <= g.batches {
      ByTheSecondBatch(g, t);
    }
    if g.gpc[t] == Waiting(true) {
      NoFollowerIsForgotten(g, t);
    }
    if g.gpc[t].Recording? {
      LeaderRecorded(g, t);
    }
  }

  /**
   A push past its claim goes on with its own seq and bytes: it is stored only once its entry
   has landed, and with group commit it fails only in its own lone commit, after a batch has.
   */
  lemma CallerReturns(g: GState, a: GAction, t: nat)
    requires Reachable(g) && GAllowed(g, a, true) && t in g.base.threads && g.base.threads[t].Claimed?
    ensures var Claimed(k, i) := g.base.threads[t]; var g' := GApply(g, a);
            && t in g'.base.threads
            && match g'.base.threads[t]
               case Claimed(k', i') => k' == k && i' == i
               case Stored(k', i') =>
                 k' == k && i' == i && k in g'.base.h.book && g'.base.h.book[k].item == i && Landed(g'.base.h.book[k].stage)
               case Failed(k', i') =>
                 && k' == k && i' == i && g'.base.disk == g.base.disk
                 && (g.base.cfg.group ==> t in g.gpc && g.gpc[t].Retrying?)
               case _ => false
  {
    hide Reachable, GInv, Inv, DurInv, Abs, GApply;
    if a.Plain? {
      PlainCaller(g, a.a, t);
    } else {
      GroupCaller(g, a, t);
    }
    StoredHasLanded(g, a, t);
  }

  lemma StoredHasLanded(g: GState, a: GAction, t: nat)
    requires Reachable(g) && GAllowed(g, a, true)
    ensures var g' := GApply(g, a);
            t in g'.base.threads && g'.base.threads[t].Stored? ==>
              var Stored(k, i) := g'.base.threads[t];
              k in g'.base.h.book && g'.base.h.book[k].item == i && Landed(g'.base.h.book[k].stage)
  {
    hide Reachable, GInv, Inv, DurInv, Abs, GApply, Sim;
    ReachableIsSound(g);
    var g' := GApply(g, a);
    GStep(g, a, true);
    ReachKeeps(Abs(g), Sim(g, a), Abs(g'));
    AbsKeepsQueue(g');
    if t in g'.base.threads && g'.base.threads[t].Stored? {
      AbsStored(g', t);
      StoredKnown(Abs(g'), t);
    }
  }

  lemma AbsStored(g: GState, t: nat)
    requires t in g.base.threads && g.base.threads[t].Stored?
    ensures t in Abs(g).threads && Abs(g).threads[t] == g.base.threads[t]
  {
  }

  lemma PlainCaller(g: GState, b: Action, t: nat)
    requires GEnabled(g, Plain(b)) && t in g.base.threads && g.base.threads[t].Claimed?
    ensures var Claimed(k, i) := g.base.threads[t]; var g' := GApply(g, Plain(b));
            t in g'.base.threads
            && (|| g'.base.threads[t] == Claimed(k, i)
                || g'.base.threads[t] == Stored(k, i)
                || (g'.base.threads[t] == Failed(k, i) && g'.base.disk == g.base.disk && !g.base.cfg.group))
  {
    PushLife(g.base, b, t);
    hide Apply, HasRoom, Writes;
    OnlyCommitFails(g.base, b, t);
  }

  lemma OnlyCommitFails(s: State, b: Action, t: nat)
    requires Enabled(s, b) && t in s.threads && s.threads[t].Claimed?
    ensures Lookup(Apply(s, b).threads, t) != Lookup(s.threads, t) ==> b.Commit?
  {
    hide Admits, Mark, Jump, LeastFrom, Put, Erase;
  }

  lemma GroupCaller(g: GState, a: GAction, t: nat)
    requires GEnabled(g, a) && !a.Plain? && t in g.base.threads && g.base.threads[t].Claimed?
    ensures var Claimed(k, i) := g.base.threads[t]; var g' := GApply(g, a);
            t in g'.base.threads
            && (|| g'.base.threads[t] == Claimed(k, i)
                || g'.base.threads[t] == Stored(k, i)
                || (g'.base.threads[t] == Failed(k, i) && g'.base.disk == g.base.disk && t in g.gpc && g.gpc[t].Retrying?))
  {
    hide PutAll, LandAll, SyncAll, RecordAll, NotifyAllWaiting, Put, Mark;
  }

  /** A caller of group commit that is not asleep, or has yet to join, has a step to make; a sleeping one has a leader that does. */
  lemma CallerGoesOn(g: GState, t: nat) returns (a: GAction)
    requires Reachable(g) && g.base.cfg.group && t in g.base.threads && g.base.threads[t].Claimed?
    ensures GAllowed(g, a, true) && !a.Plain?
    ensures t !in g.gpc ==> a == Enter(t)
    ensures t in g.gpc && g.gpc[t] != Waiting(true) ==> a == Flush(t, true) || a == Record(t) || a == Check(t) || a == Retry(t, true)
    ensures t in g.gpc && g.gpc[t] == Waiting(true) ==>
              (a.Flush? || a.Record?) && a.t in g.gpc && Leads(g.gpc[a.t]) && g.base.threads[t].no in Nos(g.grp.pending) + Nos(g.gpc[a.t].batch)
  {
    hide Reachable, GInv, Inv, DurInv, Abs, GApply;
    ReachableIsSound(g);
    if t !in g.gpc {
      return Enter(t);
    }
    var l := t;
    if g.gpc[t] == Waiting(true) {
      l := LeaderOf(g, t);
    }
    IsInside(g, l);
    match g.gpc[l]
    case Leading(_) => a := Flush(l, true);
    case Recording(_, _) => a := Record(l);
    case Retrying => a := Retry(l, true);
    case Waiting(asleep) => a := Check(l);
  }

  lemma IsInside(g: GState, t: nat)
    requires GInv(g) && t in g.gpc
    ensures Inside(g, t)
  {
    hide Led, Partition, Timely, Posts;
  }

  lemma LeaderOf(g: GState, t: nat) returns (l: nat)
    requires GInv(g) && t in g.gpc && g.gpc[t] == Waiting(true)
    ensures l in g.gpc && Leads(g.gpc[l]) && t in g.base.threads && g.base.threads[t].Claimed?
    ensures g.base.threads[t].no in Nos(g.grp.pending) + Nos(g.gpc[l].batch)
  {
    NoFollowerIsForgotten(g, t);
    IsInside(g, t);
    BatchIs(g.gpc, g.grp.flushing, g.grp.pending);
    l :| l in g.gpc && Leads(g.gpc[l]);
    hide GInv;
  }

  /** A batch, and a lone retry, may fail as well as succeed, and a follower may wake unasked. */
  lemma CallersMayFail(g: GState, t: nat, ok: bool)
    requires t in g.gpc && t in g.base.threads && g.base.threads[t].Claimed?
    ensures g.gpc[t].Leading? ==> GAllowed(g, Flush(t, ok), true)
    ensures g.gpc[t].Retrying? ==> GAllowed(g, Retry(t, ok), true)
    ensures g.gpc[t] == Waiting(true) ==> GAllowed(g, Stir(t), true)
  {
  }

  // ---- bounds and wakeups ----

  /** What a session keeps of its bounds and its wakeups. */
  ghost predicate Healthy(s: State) {
    && Built(s.cfg) && LenBounded(s) && (s.cfg.maxBytes < USIZE_MAX ==> BytesBounded(s)) && WakeInv(s)
  }

  lemma OpenHealthy(cfg: Config, disk: Disk, h: History)
    requires Built(cfg)
    ensures Healthy(Open(cfg, disk, h))
  {
  }

  lemma RunHealthy(s: State, acts: seq<Action>)
    requires Inv(s) && Healthy(s) && CanRun(s, acts, true)
    ensures Healthy(Run(s, acts, true))
  {
    hide Inv, WakeInv, LenBounded, BytesBounded;
    WakeRun(s, acts);
    LenRun(s, acts, true);
    if s.cfg.maxBytes < USIZE_MAX {
      BytesRun(s, acts);
    }
  }

  lemma EventHealthy(g: GState, e: Event)
    requires WorldInv(g) && Healthy(Abs(g)) && Possible(g, e)
    ensures Healthy(Abs(Next(g, e)))
  {
    hide GInv, Inv, DurInv, Abs, Open, Survives, Healthy;
    match e
    case Step(a) =>
      GStep(g, a, true);
      RunHealthy(Abs(g), Sim(g, a));
      hide GApply, Sim;
    case Crash(survivors, cfg) =>
      OpenHealthy(cfg, Disk(survivors, map[]), Interrupted(g.base));
      OpenCfg(cfg, Disk(survivors, map[]), Interrupted(g.base));
      IdleIsItself(Open(cfg, Disk(survivors, map[]), Interrupted(g.base)));
    case Stop(cfg) =>
      OpenHealthy(cfg, g.base.disk, g.base.h);
      OpenCfg(cfg, g.base.disk, g.base.h);
      IdleIsItself(Open(cfg, g.base.disk, g.base.h));
  }

  lemma {:induction false} HistoryHealthy(g: GState, events: seq<Event>)
    requires WorldInv(g) && Healthy(Abs(g)) && Happens(g, events)
    ensures Healthy(Abs(After(g, events)))
    decreases events
  {
    hide WorldInv, Healthy, Abs, Possible, Next;
    if events != [] {
      PossibleStep(g, events[0]);
      EventKeeps(g, events[0]);
      EventHealthy(g, events[0]);
      HistoryHealthy(Next(g, events[0]), events[1..]);
    }
  }

  lemma ReachableIsHealthy(g: GState)
    requires Reachable(g)
    ensures Healthy(Abs(g)) && Inv(Abs(g))
  {
    ReachableIsSound(g);
    hide Happens, After, GInv, Inv, DurInv, Abs, Open, Healthy;
    var cfg, events :| Built(cfg) && Happens(Start(cfg), events) && After(Start(cfg), events) == g;
    Beginning(cfg);
    OpenHealthy(cfg, Disk(map[], map[]), NoHistory());
    OpenCfg(cfg, Disk(map[], map[]), NoHistory());
    IdleIsItself(Open(cfg, Disk(map[], map[]), NoHistory()));
    HistoryHealthy(Start(cfg), events);
  }

  /** `len` within capacity or what was recovered, always; `bytes` likewise under a byte bound, or one item is outstanding. */
  lemma BoundsHold(g: GState)
    requires Reachable(g)
    ensures var q, cfg, h := g.base.q, g.base.cfg, g.base.h;
            && 0 <= q.len <= Larger(cfg.capacity, h.len0) && 0 <= q.bytes
            && (cfg.maxBytes < USIZE_MAX ==> q.bytes <= Larger(cfg.maxBytes, h.bytes0) || (q.len == 1 && q.bytes <= USIZE_MAX))
  {
    hide Reachable, Inv, WakeInv;
    ReachableIsHealthy(g);
    AbsKeepsQueue(g);
    hide Abs;
    NoUnderflow(Abs(g));
  }

  /**
   While a producer sleeps on `room`: a closed queue still owes `notify_all`, an empty one
   has a wake delivered or owed, and without a byte bound no more slots are free than wakes
   are delivered or owed.
   */
  lemma NoWakeIsLost(g: GState, t: nat)
    requires Reachable(g) && t in g.base.threads && g.base.threads[t].Asleep?
    ensures var s := Abs(g);
            && (g.base.q.closed ==> SomeoneCloses(s.threads))
            && (!g.base.q.closed && g.base.q.len == 0 ==> Credit(s) > 0)
            && (!g.base.q.closed && g.base.cfg.maxBytes == USIZE_MAX ==> g.base.cfg.capacity - g.base.q.len <= Credit(s))
  {
    hide Reachable, Inv, InStore;
    ReachableIsHealthy(g);
    AbsKeepsQueue(g);
    assert Abs(g).threads[t].Asleep? by {
      SleeperIsItself(g, t);
    }
    assert SomeoneSleeps(Abs(g).threads);
    hide Abs, Credit, SomeoneCloses;
  }

  lemma SleeperIsItself(g: GState, t: nat)
    requires t in g.base.threads && g.base.threads[t].Asleep?
    ensures t in Abs(g).threads && Abs(g).threads[t] == g.base.threads[t]
  {
  }

  // ---- whole sessions with group commit ----

  /**
   A session with group commit, over any store and any run: it moves step by step as a
   session with one durable put per push, loses no wakeup, stays within its bounds, and
   claims, puts and acks each seq at most once: batches, lone retries and plain commits
   together.
   */
  lemma GroupSession(cfg: Config, disk: Disk, h: History, acts: seq<GAction>)
    requires Built(cfg) && GCanRun(Idle(Open(cfg, disk, h)), acts, true)
    ensures var g := Idle(Open(cfg, disk, h)); var s' := Abs(GRun(g, acts, true));
            && Reaches(g.base, SimRun(g, acts, true), s', true)
            && WakeInv(s') && LenBounded(s') && (cfg.maxBytes < USIZE_MAX ==> BytesBounded(s'))
            && (forall k: nat :: GClaims(g, acts, k) <= 1 && GPuts(g, acts, k) <= 1 && GAcks(g, acts, k) <= 1)
  {
    var s := Open(cfg, disk, h);
    OpenKeeps(cfg, disk, h);
    OpenCfg(cfg, disk, h);
    IdleIsItself(s);
    OpenHealthy(cfg, disk, h);
    hide Open, Inv, GInv, Abs, WakeInv, LenBounded, BytesBounded, GClaims, GPuts, GAcks;
    Refines(Idle(s), acts);
    RunHealthy(s, SimRun(Idle(s), acts, true));
    RunCfg(s, SimRun(Idle(s), acts, true));
    forall k: nat
      ensures GClaims(Idle(s), acts, k) <= 1 && GPuts(Idle(s), acts, k) <= 1 && GAcks(Idle(s), acts, k) <= 1
    {
      GroupAtMostOnce(Idle(s), acts, k);
    }
  }

  /**
   Under a byte bound below `usize::MAX`, when what was recovered fits: the byte counter fits
   in every state of the session, and the saturating test is the exact one.
   */
  lemma AdmissionIsExact(cfg: Config, disk: Disk, h: History, acts: seq<GAction>, v: nat)
    requires Built(cfg) && GCanRun(Idle(Open(cfg, disk, h)), acts, true)
    requires cfg.maxBytes < USIZE_MAX && Open(cfg, disk, h).q.bytes <= USIZE_MAX
    ensures var q := Abs(GRun(Idle(Open(cfg, disk, h)), acts, true)).q;
            && 0 <= q.bytes <= USIZE_MAX
            && (Admits(cfg, q.len, q.bytes, v) <==>
                q.len < cfg.capacity && (q.len == 0 || q.bytes + v <= cfg.maxBytes))
  {
    var s := Open(cfg, disk, h);
    OpenKeeps(cfg, disk, h);
    OpenCfg(cfg, disk, h);
    IdleIsItself(s);
    OpenHealthy(cfg, disk, h);
    assert s.h.bytes0 == s.q.bytes;
    hide Open, Inv, GInv, Abs, BytesBounded, Admits;
    Refines(Idle(s), acts);
    var core := SimRun(Idle(s), acts, true);
    BytesRun(s, core);
    ExactAdmission(Run(s, core, true), v);
  }
}
