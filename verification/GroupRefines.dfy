/** Group commit refines one durable put per push, and never forgets a caller. */
module GroupRefines {
  import opened Base
  import opened Protocol
  import opened Invariants
  import opened Alone
  import opened Group

  // ---- the queue a group-commit state stands for ----

  ghost predicate Flushed(gpc: map<nat, Gpc>) {
    exists l :: l in gpc && gpc[l].Recording? && gpc[l].ok
  }

  /** The caller's entry is in the store, whether or not it has been told. */
  ghost predicate InStore(g: GState, t: nat) {
    && Inside(g, t) && !g.gpc[t].Retrying?
    && var n := g.base.threads[t].no;
       Lookup(g.grp.done, n) == Some(true) || (Flushed(g.gpc) && n in Nos(Batch(g.gpc)))
  }

  ghost function AbsPc(g: GState, t: nat): Pc
    requires t in g.base.threads
  {
    if InStore(g, t) then Stored(g.base.threads[t].no, g.base.threads[t].item) else g.base.threads[t]
  }

  /** The same queue, with the callers whose entries have landed past their own commit. */
  ghost function Abs(g: GState): State {
    g.base.(threads := map t | t in g.base.threads :: AbsPc(g, t))
  }

  // ---- runs ----

  predicate GAllowed(g: GState, a: GAction, serial: bool) {
    GEnabled(g, a) && (serial && a.Plain? ==> OneConsumer(g.base, a.a))
  }

  predicate GCanRun(g: GState, acts: seq<GAction>, serial: bool)
    decreases acts
  {
    acts == [] || (GAllowed(g, acts[0], serial) && GCanRun(GApply(g, acts[0]), acts[1..], serial))
  }

  function GRun(g: GState, acts: seq<GAction>, serial: bool): GState
    requires GCanRun(g, acts, serial)
    decreases acts
  {
    if acts == [] then g else GRun(GApply(g, acts[0]), acts[1..], serial)
  }

  /** Nobody is inside group commit; `batches` is only recorded. */
  function Idle(base: State, batches: nat := 0): GState {
    GState(base, GroupState([], false, map[]), map[], map[], batches)
  }

  /** The one-put-per-push steps a group-commit step amounts to. */
  function Commits(es: seq<Entry>): seq<Action> {
    if es == [] then [] else [Commit(es[0].t, true)] + Commits(es[1..])
  }

  function Sim(g: GState, a: GAction): seq<Action>
    requires GEnabled(g, a)
  {
    match a
    case Plain(b) => [b]
    case Flush(t, ok) => if ok then Commits(g.gpc[t].batch) else []
    case Retry(t, ok) => [Commit(t, ok)]
    case _ => []
  }

  // ---- one batch commit is as many single commits ----

  function StoreAll(threads: map<nat, Pc>, es: seq<Entry>): map<nat, Pc>
    decreases es
  {
    if es == [] then threads else StoreAll(threads[es[0].t := Stored(es[0].no, es[0].item)], es[1..])
  }

  predicate AllClaimed(threads: map<nat, Pc>, es: seq<Entry>) {
    forall e :: e in es ==> e.t in threads && threads[e.t] == Claimed(e.no, e.item)
  }

  lemma ClaimedRest(threads: map<nat, Pc>, es: seq<Entry>)
    requires es != [] && AllClaimed(threads, es) && NoDup(es)
    ensures AllClaimed(threads[es[0].t := Stored(es[0].no, es[0].item)], es[1..]) && NoDup(es[1..])
  {
    forall e | e in es[1..]
      ensures e.t != es[0].t && e in es
    {
      var i :| 0 <= i < |es[1..]| && es[1..][i] == e;
      assert es[i + 1] == e && es[i + 1].no != es[0].no;
      assert es[0] in es;
    }
  }

  lemma {:induction false} StoreAllMeans(threads: map<nat, Pc>, es: seq<Entry>)
    requires AllClaimed(threads, es) && NoDup(es)
    ensures StoreAll(threads, es).Keys == threads.Keys
    ensures forall e :: e in es ==> StoreAll(threads, es)[e.t] == Stored(e.no, e.item)
    ensures forall t :: t in threads && (forall e :: e in es ==> e.t != t) ==> StoreAll(threads, es)[t] == threads[t]
    decreases es
  {
    if es != [] {
      var next := threads[es[0].t := Stored(es[0].no, es[0].item)];
      ClaimedRest(threads, es);
      assert es[0] in es;
      StoreAllMeans(next, es[1..]);
      forall e | e in es[1..]
        ensures e.t != es[0].t
      {
        assert next[e.t].Claimed?;
      }
      assert forall e :: e in es <==> e == es[0] || e in es[1..];
    }
  }

  /** The state after every entry of `es` has been committed by its own caller. */
  function AllCommitted(s: State, es: seq<Entry>): State {
    s.(disk := PutAll(s.disk, es), threads := StoreAll(s.threads, es),
    h := s.h.(book := LandAll(s.h.book, es), synced := SyncAll(s.h.synced, es)))
  }

  lemma {:induction false} BatchIsCommits(s: State, es: seq<Entry>, serial: bool)
    requires AllClaimed(s.threads, es) && NoDup(es) && s.cfg.durable
    ensures Reaches(s, Commits(es), AllCommitted(s, es), serial)
    decreases es
  {
    if es == [] {
      NoActs(s, serial);
    } else {
      var e := es[0];
      assert e in es;
      var s1 := DoCommit(s, e.t, true);
      ClaimedRest(s.threads, es);
      BatchIsCommits(s1, es[1..], serial);
      NoActs(s, serial);
      Extend(s, [], s, Commit(e.t, true), serial);
      assert [] + [Commit(e.t, true)] == [Commit(e.t, true)];
      Join(s, [Commit(e.t, true)], s1, Commits(es[1..]), AllCommitted(s1, es[1..]), serial);
    }
  }

  // ---- what the invariant says about one caller ----

  lemma CallerKnown(g: GState, t: nat)
    requires GInv(g) && t in g.gpc && !g.gpc[t].Retrying?
    ensures Inside(g, t)
    ensures var n := g.base.threads[t].no;
            && n in g.joined && g.joined[n].t == t
            && n in Nos(g.grp.pending) + Nos(Batch(g.gpc)) + g.grp.done.Keys
            && (n in Nos(g.grp.pending) + Nos(Batch(g.gpc)) ==> n !in g.grp.done)
            && (n in Nos(g.grp.pending) ==> n !in Nos(Batch(g.gpc)))
  {
  }

  lemma SameSeqSameCaller(g: GState, t: nat, t': nat)
    requires GInv(g) && t in g.gpc && t' in g.gpc && !g.gpc[t].Retrying? && !g.gpc[t'].Retrying?
    requires g.base.threads[t].no == g.base.threads[t'].no
    ensures t == t'
  {
  }

  /** A caller about to join holds a seq nobody inside waits for. */
  lemma FreshTicket(g: GState, t: nat)
    requires GInv(g) && Inv(Abs(g)) && CanEnter(g, t)
    ensures g.base.threads[t].no !in g.joined
  {
    hide Led, Partition, Timely, Posts;
    var n := g.base.threads[t].no;
    var abs := Abs(g);
    assert abs.threads[t] == g.base.threads[t];
    OwnerKnown(abs, t);
    if n in g.joined {
      var t' := g.joined[n].t;
      assert t' in g.gpc && t' != t;
      if InStore(g, t') {
        StoredKnown(abs, t');
      } else {
        OwnerKnown(abs, t');
      }
    }
  }

  // ---- steps: the invariant is kept, and the queue it stands for moves as `Sim` says ----

  lemma SameAbs(g: GState, g': GState)
    requires g'.base.(threads := g.base.threads) == g.base && g'.base.threads.Keys == g.base.threads.Keys
    requires forall t :: t in g.base.threads ==> AbsPc(g', t) == AbsPc(g, t)
    ensures Abs(g') == Abs(g)
  {
    assert Abs(g').threads == Abs(g).threads;
  }

  lemma EnterStep(g: GState, t: nat)
    requires GInv(g) && Inv(Abs(g)) && CanEnter(g, t)
    ensures GInv(DoEnter(g, t)) && Abs(DoEnter(g, t)) == Abs(g)
  {
    hide Led, Tickets, Partition, Timely, Posts, Inv, Abs;
    FreshTicket(g, t);
    EnterAbs(g, t);
    var e := Entry(t, g.base.threads[t].no, g.base.threads[t].item);
    var es := g.grp.pending + [e];
    var pc := if g.grp.flushing then Waiting(true) else Leading(es);
    NosAppend(g.grp.pending, e);
    BatchIs(g.gpc, g.grp.flushing, g.grp.pending);
    LedEnter(g.gpc, g.grp.pending, t, es);
    TicketsEnter(g.base.threads, g.gpc, g.joined, t, pc, g.batches);
    PartitionEnter(g.joined, g.grp.pending, Batch(g.gpc), g.grp.done, e, Ticket(t, g.batches));
    TimelyEnter(g.base.threads, g.gpc, g.joined, g.grp.pending, Batch(g.gpc), g.batches, t, pc);
    PostsEnter(g, t, pc);
    assert [] + [e] == [e];
  }

  lemma PostsEnter(g: GState, t: nat, pc: Gpc)
    requires GInv(g) && CanEnter(g, t) && g.base.threads[t].no !in g.joined
    requires pc.Waiting? || (pc.Leading? && g.base.threads[t].no in Nos(pc.batch))
    ensures Posts(g.base.threads, g.gpc[t := pc], g.grp.done)
  {
  }

  lemma FlushedSame(gpc: map<nat, Gpc>, t: nat, pc: Gpc)
    requires !pc.Recording? && (t in gpc ==> !gpc[t].Recording?)
    ensures Flushed(gpc[t := pc]) == Flushed(gpc) && Flushed(gpc - {t}) == Flushed(gpc)
  {
    var moved, rest := gpc[t := pc], gpc - {t};
    if l :| l in gpc && gpc[l].Recording? && gpc[l].ok {
      assert l in moved && moved[l] == gpc[l] && l in rest && rest[l] == gpc[l];
    }
    if l :| l in moved && moved[l].Recording? && moved[l].ok {
      assert l in gpc && gpc[l] == moved[l];
    }
    if l :| l in rest && rest[l].Recording? && rest[l].ok {
      assert l in gpc && gpc[l] == rest[l];
    }
  }

  /** Joining leaves the batch in flight, if there is one, as it is. */
  lemma EnterFlushed(g: GState, t: nat)
    requires Led(g.gpc, g.grp.flushing, g.grp.pending) && CanEnter(g, t)
    ensures var gpc' := DoEnter(g, t).gpc;
            && Flushed(gpc') == Flushed(g.gpc)
            && (Flushed(g.gpc) ==> Batch(gpc') == Batch(g.gpc))
  {
    var es := g.grp.pending + [Entry(t, g.base.threads[t].no, g.base.threads[t].item)];
    LedEnter(g.gpc, g.grp.pending, t, es);
    FlushedSame(g.gpc, t, DoEnter(g, t).gpc[t]);
  }

  lemma EnterAbs(g: GState, t: nat)
    requires GInv(g) && CanEnter(g, t) && g.base.threads[t].no !in g.joined
    ensures Abs(DoEnter(g, t)) == Abs(g)
  {
    EnterFlushed(g, t);
    hide Led, Tickets, Timely, Posts, Flushed, Batch;
    SameAbs(g, DoEnter(g, t));
  }

  // ---- the leader's commit ----

  lemma FlushKeeps(g: GState, t: nat, ok: bool)
    requires GInv(g) && Inside(g, t) && g.gpc[t].Leading?
    ensures GInv(DoFlush(g, t, ok)) && Batch(DoFlush(g, t, ok).gpc) == g.gpc[t].batch == Batch(g.gpc)
  {
    var gpc' := g.gpc[t := Recording(g.gpc[t].batch, ok)];
    assert Posts(g.base.threads, gpc', g.grp.done);
    hide Tickets, Partition, Timely, Posts;
    assert t in g.gpc && Leads(g.gpc[t]);
    BatchIs(g.gpc, true, g.grp.pending);
    LedMove(g.gpc, gpc', g.grp.pending, g.grp.pending, t);
    TicketsMove(g.base.threads, g.gpc, gpc', g.joined);
    hide Led;
    TimelyMove(g.base.threads, g.base.threads, g.gpc, gpc', g.joined, g.grp.pending, Batch(g.gpc), g.batches);
  }

  lemma FlushedNow(g: GState, t: nat, ok: bool)
    requires Led(g.gpc, g.grp.flushing, g.grp.pending) && Inside(g, t) && g.gpc[t].Leading?
    ensures !Flushed(g.gpc) && (Flushed(DoFlush(g, t, ok).gpc) <==> ok)
  {
    var gpc' := DoFlush(g, t, ok).gpc;
    assert gpc'[t].Recording?;
    assert forall l :: l in g.gpc && Leads(g.gpc[l]) ==> l == t;
  }

  lemma FlushSim(g: GState, t: nat, ok: bool, serial: bool)
    requires GInv(g) && Inside(g, t) && g.gpc[t].Leading?
    ensures Reaches(Abs(g), if ok then Commits(g.gpc[t].batch) else [], Abs(DoFlush(g, t, ok)), serial)
  {
    hide Led, Tickets, Partition, Timely, Posts, Reaches, Flushed;
    var g', batch := DoFlush(g, t, ok), g.gpc[t].batch;
    FlushKeeps(g, t, ok);
    FlushedNow(g, t, ok);
    if ok {
      FlushClaimed(g, t);
      FlushAbs(g, t);
      hide Abs;
      BatchIsCommits(Abs(g), batch, serial);
    } else {
      NoActs(Abs(g), serial);
      SameAbs(g, g');
    }
  }

  lemma FlushClaimed(g: GState, t: nat)
    requires GInv(g) && t in g.gpc && g.gpc[t].Leading? && !Flushed(g.gpc)
    ensures AllClaimed(Abs(g).threads, g.gpc[t].batch) && NoDup(g.gpc[t].batch) && Abs(g).cfg.durable
  {
    BatchIs(g.gpc, g.grp.flushing, g.grp.pending);
    hide Led, Posts, Tickets;
    forall e | e in g.gpc[t].batch
      ensures e.t in Abs(g).threads && Abs(g).threads[e.t] == Claimed(e.no, e.item)
    {
      assert e.no in Nos(Batch(g.gpc));
      assert e.no !in g.grp.done;
    }
  }

  lemma FlushAbs(g: GState, t: nat)
    requires GInv(g) && Inside(g, t) && g.gpc[t].Leading? && !Flushed(g.gpc)
    requires var batch := g.gpc[t].batch;
             Flushed(DoFlush(g, t, true).gpc) && Batch(DoFlush(g, t, true).gpc) == batch == Batch(g.gpc)
    requires AllClaimed(Abs(g).threads, g.gpc[t].batch) && NoDup(g.gpc[t].batch)
    ensures Abs(DoFlush(g, t, true)) == AllCommitted(Abs(g), g.gpc[t].batch)
  {
    hide GInv, StoreAll, InStore;
    var g', batch := DoFlush(g, t, true), g.gpc[t].batch;
    var threads := Abs(g).threads;
    StoreAllMeans(threads, batch);
    forall u | u in threads
      ensures AbsPc(g', u) == StoreAll(threads, batch)[u]
    {
      if e :| e in batch && e.t == u {
        FlushedCaller(g, t, e);
      } else {
        BystanderCaller(g, t, u);
      }
    }
    assert Abs(g').threads == StoreAll(threads, batch);
  }

  lemma FlushedCaller(g: GState, t: nat, e: Entry)
    requires GInv(g) && Inside(g, t) && g.gpc[t].Leading? && e in g.gpc[t].batch
    requires Flushed(DoFlush(g, t, true).gpc) && Batch(DoFlush(g, t, true).gpc) == g.gpc[t].batch == Batch(g.gpc)
    ensures e.t in g.base.threads && AbsPc(DoFlush(g, t, true), e.t) == Stored(e.no, e.item)
  {
    hide Led, Posts, Partition;
    var g' := DoFlush(g, t, true);
    assert e.no in Nos(Batch(g'.gpc));
    assert Ticketed(g.base.threads, g.gpc, g.joined, e);
    assert !g.gpc[e.t].Retrying?;
  }

  lemma BystanderCaller(g: GState, t: nat, u: nat)
    requires GInv(g) && Inside(g, t) && g.gpc[t].Leading? && u in g.base.threads && !Flushed(g.gpc)
    requires Batch(DoFlush(g, t, true).gpc) == g.gpc[t].batch == Batch(g.gpc)
    requires forall e :: e in g.gpc[t].batch ==> e.t != u
    ensures AbsPc(DoFlush(g, t, true), u) == AbsPc(g, u)
  {
    var g' := DoFlush(g, t, true);
    hide Led, Posts, Partition;
    assert forall e :: e in g.gpc[t].batch ==> Ticketed(g.base.threads, g.gpc, g.joined, e);
    assert forall e :: e in g.gpc[t].batch ==> g.joined[e.no].t != u;
  }

  // ---- recording outcomes ----

  /** The seq of a leader that has flushed gets an outcome when the batch is recorded. */
  lemma LeaderRecorded(g: GState, t: nat)
    requires GInv(g) && Inside(g, t) && g.gpc[t].Recording?
    ensures Batch(g.gpc) == g.gpc[t].batch && g.grp.flushing
    ensures g.base.threads[t].no in RecordAll(g.grp.done, g.gpc[t].batch, g.gpc[t].ok)
  {
    assert t in g.gpc && Leads(g.gpc[t]);
    BatchIs(g.gpc, g.grp.flushing, g.grp.pending);
  }

  /** After `notify_all` nobody sleeps, and only the old leader still leads. */
  lemma AllAwake(g: GState, t: nat)
    requires Led(g.gpc, g.grp.flushing, g.grp.pending) && t in g.gpc && Leads(g.gpc[t])
    ensures var woken := NotifyAllWaiting(g.gpc);
            && woken.Keys == g.gpc.Keys
            && (forall u :: u in woken ==> woken[u] != Waiting(true) && woken[u].Retrying? == g.gpc[u].Retrying?)
            && (forall u :: u in woken && u != t ==> !Leads(woken[u]) && !Leads(g.gpc[u]))
  {
  }

  /** Nothing is asked of callers that neither sleep nor lead. */
  lemma PostsFree(threads: map<nat, Pc>, gpc: map<nat, Gpc>, done: map<nat, bool>)
    requires forall t :: t in gpc ==> t in threads && threads[t].Claimed?
    requires forall t :: t in gpc ==> gpc[t] != Waiting(true)
    requires forall t :: t in gpc && Leads(gpc[t]) ==> threads[t].no in done
    ensures Posts(threads, gpc, done)
  {
  }

  lemma RecordStays(g: GState, t: nat)
    requires GInv(g) && Inside(g, t) && g.gpc[t].Recording? && g.grp.pending != []
    ensures GInv(DoRecord(g, t))
  {
    hide Led, Partition, Timely, Posts, RecordAll, NotifyAllWaiting;
    var Recording(batch, ok) := g.gpc[t];
    var gpc' := NotifyAllWaiting(g.gpc)[t := Leading(g.grp.pending)];
    var done' := RecordAll(g.grp.done, batch, ok);
    LeaderRecorded(g, t);
    AllAwake(g, t);
    PostsFree(g.base.threads, gpc', done');
    hide Tickets;
    LedMove(g.gpc, gpc', g.grp.pending, [], t);
    TicketsMove(g.base.threads, g.gpc, gpc', g.joined);
    PartitionRecord(g.joined, g.grp.pending, batch, g.grp.done, ok);
    TimelyRecord(g.base.threads, g.gpc, gpc', g.joined, g.grp.pending, batch, g.batches);
  }

  /** Either way of collecting: returned Ok, or about to retry. */
  function Collected(g: GState, gpc: map<nat, Gpc>, done: map<nat, bool>, t: nat): (map<nat, Pc>, map<nat, Gpc>)
    requires t in g.base.threads && g.base.threads[t].Claimed? && t in gpc
  {
    var Claimed(n, item) := g.base.threads[t];
    if Lookup(done, n) == Some(true) then (g.base.threads[t := Stored(n, item)], gpc - {t})
    else (g.base.threads, gpc[t := Retrying])
  }

  lemma LeaderTickets(g: GState, t: nat)
    requires GInv(g) && Inside(g, t) && g.gpc[t].Recording?
    ensures var n := g.base.threads[t].no;
            var done' := RecordAll(g.grp.done, g.gpc[t].batch, g.gpc[t].ok);
            var (threads', gpc') := Collected(g, NotifyAllWaiting(g.gpc), done', t);
            Tickets(threads', gpc', g.joined - {n}) && Posts(threads', gpc', done' - {n})
  {
    hide Led, Partition, Timely, Posts, RecordAll, NotifyAllWaiting;
    var n := g.base.threads[t].no;
    var woken := NotifyAllWaiting(g.gpc);
    var done' := RecordAll(g.grp.done, g.gpc[t].batch, g.gpc[t].ok);
    LeaderRecorded(g, t);
    AllAwake(g, t);
    TicketsMove(g.base.threads, g.gpc, woken, g.joined);
    TicketsCollect(g.base.threads, woken, g.joined, t, Stored(n, g.base.threads[t].item));
    var (threads', gpc') := Collected(g, woken, done', t);
    TicketsClaimed(threads', gpc', g.joined - {n});
    hide Tickets;
    PostsFree(threads', gpc', done' - {n});
  }

  lemma RecordLeaves(g: GState, t: nat)
    requires GInv(g) && Inside(g, t) && g.gpc[t].Recording? && g.grp.pending == []
    ensures GInv(DoRecord(g, t))
  {
    hide Led, Partition, Timely, Posts, Tickets, RecordAll, NotifyAllWaiting;
    var Recording(batch, ok) := g.gpc[t];
    var n := g.base.threads[t].no;
    var done' := RecordAll(g.grp.done, batch, ok);
    LeaderRecorded(g, t);
    LeaderTickets(g, t);
    AllAwake(g, t);
    var (threads', gpc') := Collected(g, NotifyAllWaiting(g.gpc), done', t);
    LedMove(g.gpc, gpc', g.grp.pending, [], t);
    PartitionRecord(g.joined, g.grp.pending, batch, g.grp.done, ok);
    PartitionCollect(g.joined, [], [], done', n);
    TimelyNone(threads', gpc', g.joined - {n}, g.batches + 1);
  }

  lemma TicketsClaimed(threads: map<nat, Pc>, gpc: map<nat, Gpc>, joined: map<nat, Ticket>)
    requires Tickets(threads, gpc, joined)
    ensures forall t :: t in gpc ==> t in threads && threads[t].Claimed?
  {
  }

  lemma TimelyNone(threads: map<nat, Pc>, gpc: map<nat, Gpc>, joined: map<nat, Ticket>, batches: nat)
    ensures Timely(threads, gpc, joined, [], [], batches)
  {
  }

  /** A recorded outcome says the same as the batch in the store did. */
  lemma RecordedSame(g: GState, t: nat, u: nat)
    requires GInv(g) && Inside(g, t) && g.gpc[t].Recording? && Inside(g, u) && !g.gpc[u].Retrying?
    ensures var done' := RecordAll(g.grp.done, g.gpc[t].batch, g.gpc[t].ok);
            InStore(g, u) <==> Lookup(done', g.base.threads[u].no) == Some(true)
  {
    LeaderRecorded(g, t);
    CallerKnown(g, u);
    hide Timely, Posts, Tickets, Partition;
    assert Flushed(g.gpc) <==> g.gpc[t].ok by {
      assert forall l :: l in g.gpc && Leads(g.gpc[l]) ==> l == t;
      assert g.gpc[t].Recording?;
    }
  }

  lemma NotFlushedAfter(g: GState, t: nat)
    requires Led(g.gpc, g.grp.flushing, g.grp.pending) && Inside(g, t) && g.gpc[t].Recording?
    ensures !Flushed(DoRecord(g, t).gpc)
  {
    assert forall l :: l in g.gpc && Leads(g.gpc[l]) ==> l == t;
  }

  lemma RecordCaller(g: GState, t: nat, u: nat)
    requires GInv(g) && Inside(g, t) && g.gpc[t].Recording? && u in g.base.threads
    ensures u in DoRecord(g, t).base.threads && AbsPc(DoRecord(g, t), u) == AbsPc(g, u)
  {
    hide Led, Tickets, Partition, Timely, Posts, RecordAll, Batch;
    NotFlushedAfter(g, t);
    hide Flushed;
    if Inside(g, u) && !g.gpc[u].Retrying? {
      RecordedSame(g, t, u);
      if u != t {
        RecordOther(g, t, u);
      }
    }
  }

  lemma RecordAbs(g: GState, t: nat)
    requires GInv(g) && Inside(g, t) && g.gpc[t].Recording?
    ensures Abs(DoRecord(g, t)) == Abs(g)
  {
    forall u | u in g.base.threads
      ensures u in DoRecord(g, t).base.threads && AbsPc(DoRecord(g, t), u) == AbsPc(g, u)
    {
      RecordCaller(g, t, u);
    }
    hide GInv, AbsPc;
    SameAbs(g, DoRecord(g, t));
  }

  /** Another caller's outcome is untouched by the leader's collecting its own. */
  lemma RecordOther(g: GState, t: nat, u: nat)
    requires GInv(g) && Inside(g, t) && g.gpc[t].Recording? && Inside(g, u) && !g.gpc[u].Retrying? && u != t
    ensures var g' := DoRecord(g, t);
            && Inside(g', u) && !g'.gpc[u].Retrying? && g'.base.threads[u] == g.base.threads[u]
            && Lookup(g'.grp.done, g.base.threads[u].no)
               == Lookup(RecordAll(g.grp.done, g.gpc[t].batch, g.gpc[t].ok), g.base.threads[u].no)
  {
    hide Led, Timely, Posts, Partition;
    if g.base.threads[u].no == g.base.threads[t].no {
      SameSeqSameCaller(g, u, t);
    }
  }

  lemma RecordStep(g: GState, t: nat)
    requires GInv(g) && Inside(g, t) && g.gpc[t].Recording?
    ensures GInv(DoRecord(g, t)) && Abs(DoRecord(g, t)) == Abs(g)
  {
    RecordAbs(g, t);
    hide GInv, Abs;
    if g.grp.pending == [] {
      RecordLeaves(g, t);
    } else {
      RecordStays(g, t);
    }
  }

  // ---- a woken follower ----

  lemma CheckCollects(g: GState, t: nat)
    requires GInv(g) && Inside(g, t) && g.gpc[t] == Waiting(false) && g.base.threads[t].no in g.grp.done
    ensures GInv(Collect(g, t))
  {
    var n := g.base.threads[t].no;
    var (threads', gpc') := Collected(g, g.gpc, g.grp.done, t);
    CallerKnown(g, t);
    CollectPosts(g, t);
    hide Led, Partition, Timely, Posts, Tickets;
    LedFollow(g.gpc, g.grp.flushing, g.grp.pending, t, Retrying);
    TicketsCollect(g.base.threads, g.gpc, g.joined, t, Stored(n, g.base.threads[t].item));
    PartitionCollect(g.joined, g.grp.pending, Batch(g.gpc), g.grp.done, n);
    TimelyLeave(g.base.threads, g.gpc, g.joined, g.grp.pending, Batch(g.gpc), g.batches, t,
                Stored(n, g.base.threads[t].item));
  }

  lemma CollectPosts(g: GState, t: nat)
    requires GInv(g) && Inside(g, t) && g.gpc[t] == Waiting(false) && g.base.threads[t].no in g.grp.done
    ensures var n := g.base.threads[t].no;
            var (threads', gpc') := Collected(g, g.gpc, g.grp.done, t);
            && (forall u :: u in gpc' ==> u in threads' && threads'[u].Claimed?)
            && Posts(threads', gpc', g.grp.done - {n})
  {
    hide Led, Partition, Timely;
  }

  lemma CheckCaller(g: GState, t: nat, u: nat)
    requires GInv(g) && Inside(g, t) && g.gpc[t] == Waiting(false) && g.base.threads[t].no in g.grp.done
    requires u in g.base.threads
    ensures u in Collect(g, t).base.threads && AbsPc(Collect(g, t), u) == AbsPc(g, u)
  {
    var g' := Collect(g, t);
    LedFollow(g.gpc, g.grp.flushing, g.grp.pending, t, Retrying);
    CallerKnown(g, t);
    FlushedSame(g.gpc, t, Retrying);
    hide Led, Partition, Timely, Posts, Flushed;
    if Inside(g, u) && !g.gpc[u].Retrying? && g.base.threads[u].no == g.base.threads[t].no {
      SameSeqSameCaller(g, u, t);
    }
    hide Tickets, Batch;
  }

  lemma CheckStep(g: GState, t: nat)
    requires GInv(g) && Inside(g, t) && g.gpc[t] == Waiting(false)
    ensures GInv(DoCheck(g, t)) && Abs(DoCheck(g, t)) == Abs(g)
  {
    hide GInv, AbsPc;
    var g' := DoCheck(g, t);
    if g.base.threads[t].no in g.grp.done {
      forall u | u in g.base.threads
        ensures u in g'.base.threads && AbsPc(g', u) == AbsPc(g, u)
      {
        CheckCaller(g, t, u);
      }
      CheckCollects(g, t);
      SameAbs(g, g');
    } else {
      Dozes(g, t, Waiting(true));
    }
  }

  /** A follower changes only between asleep and woken. */
  lemma Dozes(g: GState, t: nat, pc: Gpc)
    requires GInv(g) && Inside(g, t) && g.gpc[t].Waiting? && pc.Waiting?
    requires pc == Waiting(true) ==> g.base.threads[t].no !in g.grp.done
    ensures var g' := g.(gpc := g.gpc[t := pc]); GInv(g') && Abs(g') == Abs(g)
  {
    var g' := g.(gpc := g.gpc[t := pc]);
    hide Led, Partition, Timely, Tickets, Flushed, Posts;
    DozesPosts(g, t, pc);
    LedFollow(g.gpc, g.grp.flushing, g.grp.pending, t, pc);
    FlushedSame(g.gpc, t, pc);
    TicketsMove(g.base.threads, g.gpc, g'.gpc, g.joined);
    CallerKnown(g, t);
    DozesTimely(g, t, pc);
    SameAbs(g, g');
  }

  lemma DozesPosts(g: GState, t: nat, pc: Gpc)
    requires GInv(g) && Inside(g, t) && g.gpc[t].Waiting? && pc.Waiting?
    requires pc == Waiting(true) ==> g.base.threads[t].no !in g.grp.done
    ensures Posts(g.base.threads, g.gpc[t := pc], g.grp.done)
  {
    hide Led, Partition, Timely;
  }

  lemma DozesTimely(g: GState, t: nat, pc: Gpc)
    requires GInv(g) && t in g.gpc && g.gpc[t].Waiting? && pc.Waiting?
    ensures Timely(g.base.threads, g.gpc[t := pc], g.joined, g.grp.pending, Batch(g.gpc), g.batches)
  {
    hide Led, Partition, Posts;
    TimelyMove(g.base.threads, g.base.threads, g.gpc, g.gpc[t := pc], g.joined, g.grp.pending, Batch(g.gpc), g.batches);
  }

  // ---- the lone retry ----

  lemma RetryKeeps(g: GState, t: nat, pc: Pc)
    requires GInv(g) && Inside(g, t) && g.gpc[t].Retrying?
    ensures GInv(g.(base := g.base.(threads := g.base.threads[t := pc]), gpc := g.gpc - {t}))
    ensures Batch(g.gpc - {t}) == Batch(g.gpc)
  {
    hide Partition, Timely, Posts, Led;
    LedFollow(g.gpc, g.grp.flushing, g.grp.pending, t, Retrying);
    TicketsLeave(g.base.threads, g.gpc, g.joined, t, pc);
    RetryTimely(g, t, pc);
    RetryPosts(g, t, pc);
  }

  lemma RetryTimely(g: GState, t: nat, pc: Pc)
    requires GInv(g) && Inside(g, t) && g.gpc[t].Retrying?
    ensures Timely(g.base.threads[t := pc], g.gpc - {t}, g.joined, g.grp.pending, Batch(g.gpc), g.batches)
  {
    hide Partition, Posts, Led;
    assert forall e :: e in g.grp.pending || e in Batch(g.gpc) ==> e.t != t by {
      assert forall n :: n in g.joined ==> g.joined[n].t != t;
    }
  }

  lemma RetryPosts(g: GState, t: nat, pc: Pc)
    requires GInv(g) && Inside(g, t) && g.gpc[t].Retrying?
    ensures Posts(g.base.threads[t := pc], g.gpc - {t}, g.grp.done)
  {
    hide Partition, Timely, Led;
  }

  // ---- steps outside group commit ----

  /** The threads of `Abs`, for a given set of callers whose entries have landed. */
  function Overlay(threads: map<nat, Pc>, landed: set<nat>): map<nat, Pc> {
    map t | t in threads ::
      if t in landed && threads[t].Claimed? then Stored(threads[t].no, threads[t].item) else threads[t]
  }

  ghost function LandedSet(g: GState): set<nat> {
    set t | t in g.gpc && InStore(g, t)
  }

  lemma AbsIsOverlay(g: GState)
    ensures Abs(g) == g.base.(threads := Overlay(g.base.threads, LandedSet(g)))
  {
  }

  predicate AreClaimed(threads: map<nat, Pc>, landed: set<nat>) {
    forall t :: t in landed ==> t in threads && threads[t].Claimed?
  }

  lemma OverlayMoves(threads: map<nat, Pc>, landed: set<nat>, t: nat, pc: Pc)
    requires AreClaimed(threads, landed) && t !in landed
    ensures Overlay(threads[t := pc], landed) == Overlay(threads, landed)[t := pc]
    ensures Overlay(threads - {t}, landed) == Overlay(threads, landed) - {t}
  {
  }

  lemma OverlayWakes(threads: map<nat, Pc>, landed: set<nat>, w: Option<nat>)
    ensures Overlay(Wake(threads, w), landed) == Wake(Overlay(threads, landed), w)
    ensures Overlay(Rouse(threads), landed) == Rouse(Overlay(threads, landed))
  {
  }

  lemma PlainCommutes(s: State, landed: set<nat>, b: Action)
    requires Enabled(s, b) && !b.Commit? && AreClaimed(s.threads, landed)
    ensures var over := s.(threads := Overlay(s.threads, landed));
            Enabled(over, b) && Apply(over, b) == Apply(s, b).(threads := Overlay(Apply(s, b).threads, landed))
  {
    hide Admits, LeastFrom, Jump, Mark, Erase;
    var over := s.(threads := Overlay(s.threads, landed));
    match b
    case Arrive(t, v, wait) => PlainTry(s, landed, t, v, wait);
    case Recheck(t) => PlainTry(s, landed, t, s.threads[t].value, true);
    case Return(t) => OverlayMoves(s.threads, landed, t, Closing);
    case GiveBack(t) => OverlayMoves(s.threads, landed, t, Owes(s.threads[t].no, s.threads[t].item));
    case NotifyRoom(t, w) =>
      OverlayMoves(s.threads, landed, t, Closing);
      OverlayWakes(s.threads - {t}, landed, w);
    case Close(t) => OverlayMoves(s.threads, landed, t, Closing);
    case NotifyAll(t) =>
      OverlayMoves(s.threads, landed, t, Closing);
      OverlayWakes(s.threads - {t}, landed, None);
    case Spurious(t) => OverlayWakes(s.threads, landed, Some(t));
    case NotifyAck(g, w) => OverlayWakes(s.threads, landed, w);
    case _ => ConsumerCommutes(s, landed, b);
  }

  /** The consumer's steps up to an ack's notification do not look at the threads. */
  lemma ConsumerCommutes(s: State, landed: set<nat>, b: Action)
    requires Enabled(s, b)
    requires b.BeginReserve? || b.Seek? || b.Take? || b.BeginAck? || b.Delete? || b.Release? || b.SettleAck?
    ensures var over := s.(threads := Overlay(s.threads, landed));
            Enabled(over, b) && Apply(over, b) == Apply(s, b).(threads := Overlay(Apply(s, b).threads, landed))
  {
    hide LeastFrom, Jump, Mark, Erase;
  }

  lemma PlainTry(s: State, landed: set<nat>, t: nat, v: Bytes, wait: bool)
    requires AreClaimed(s.threads, landed) && t !in landed
    ensures Try(s.(threads := Overlay(s.threads, landed)), t, v, wait)
            == Try(s, t, v, wait).(threads := Overlay(Try(s, t, v, wait).threads, landed))
  {
    OverlayMoves(s.threads, landed, t, Asleep(v));
    OverlayMoves(s.threads, landed, t, Claimed(s.q.tail, Item(s.h.nextId, v)));
    hide Overlay;
  }

  lemma CallersStay(s: State, b: Action, t: nat)
    requires Enabled(s, b) && !b.Commit? && t in s.threads && s.threads[t].Claimed?
    ensures t in Apply(s, b).threads && Apply(s, b).threads[t] == s.threads[t]
  {
  }

  lemma CommitCommutes(s: State, landed: set<nat>, t: nat, ok: bool)
    requires Enabled(s, Commit(t, ok)) && AreClaimed(s.threads, landed) && t !in landed
    ensures var over := s.(threads := Overlay(s.threads, landed));
            Enabled(over, Commit(t, ok))
            && DoCommit(over, t, ok) == DoCommit(s, t, ok).(threads := Overlay(DoCommit(s, t, ok).threads, landed))
  {
    OverlayMoves(s.threads, landed, t, DoCommit(s, t, ok).threads[t]);
  }

  lemma RetryLanded(g: GState, t: nat, base': State)
    requires GInv(g) && Inside(g, t) && g.gpc[t].Retrying? && Batch(g.gpc - {t}) == Batch(g.gpc)
    requires base'.threads.Keys == g.base.threads.Keys
    requires forall u :: u in g.base.threads && u != t ==> base'.threads[u] == g.base.threads[u]
    ensures LandedSet(g.(base := base', gpc := g.gpc - {t})) == LandedSet(g)
    ensures t !in LandedSet(g) && AreClaimed(g.base.threads, LandedSet(g))
  {
    FlushedSame(g.gpc, t, Retrying);
    hide Led, Tickets, Partition, Timely, Posts, Flushed, Batch;
  }

  lemma RetryStep(g: GState, t: nat, ok: bool)
    requires GInv(g) && Inside(g, t) && g.gpc[t].Retrying?
    ensures var g' := g.(base := DoCommit(g.base, t, ok), gpc := g.gpc - {t});
            GInv(g') && Enabled(Abs(g), Commit(t, ok)) && Abs(g') == Apply(Abs(g), Commit(t, ok))
  {
    hide Led, Tickets, Partition, Timely, Posts, Abs;
    var g' := g.(base := DoCommit(g.base, t, ok), gpc := g.gpc - {t});
    RetryKeeps(g, t, g'.base.threads[t]);
    RetryLanded(g, t, g'.base);
    CommitCommutes(g.base, LandedSet(g), t, ok);
    AbsIsOverlay(g);
    AbsIsOverlay(g');
  }

  lemma PlainLanded(g: GState, base': State)
    requires forall t :: t in g.gpc ==> t in g.base.threads && t in base'.threads && base'.threads[t] == g.base.threads[t]
    ensures LandedSet(g.(base := base')) == LandedSet(g) && AreClaimed(g.base.threads, LandedSet(g))
  {
  }

  lemma CallersAllStay(g: GState, b: Action)
    requires GInv(g) && GEnabled(g, Plain(b))
    ensures forall t :: t in g.gpc ==>
      t in g.base.threads && t in Apply(g.base, b).threads && Apply(g.base, b).threads[t] == g.base.threads[t]
  {
    TicketsClaimed(g.base.threads, g.gpc, g.joined);
    hide Led, Tickets, Partition, Timely, Posts, Apply;
    forall t | t in g.gpc
      ensures t in Apply(g.base, b).threads && Apply(g.base, b).threads[t] == g.base.threads[t]
    {
      CallersStay(g.base, b, t);
    }
  }

  lemma CfgStays(s: State, b: Action)
    requires Enabled(s, b)
    ensures Apply(s, b).cfg == s.cfg
  {
  }

  lemma PlainKeeps(g: GState, b: Action)
    requires GInv(g) && GEnabled(g, Plain(b))
    ensures GInv(g.(base := Apply(g.base, b)))
  {
    CallersAllStay(g, b);
    CfgStays(g.base, b);
    hide Apply, Enabled;
    var threads' := Apply(g.base, b).threads;
    PlainPosts(g, threads');
    hide Led, Partition, Posts;
    TicketsPlain(g.base.threads, threads', g.gpc, g.joined);
    hide Tickets;
    TimelyMove(g.base.threads, threads', g.gpc, g.gpc, g.joined, g.grp.pending, Batch(g.gpc), g.batches);
  }

  lemma PlainPosts(g: GState, threads': map<nat, Pc>)
    requires GInv(g)
    requires forall t :: t in g.gpc ==> t in threads' && t in g.base.threads && threads'[t] == g.base.threads[t]
    ensures (forall t :: t in g.gpc ==> threads'[t].Claimed?) && Posts(threads', g.gpc, g.grp.done)
  {
    hide Led, Partition, Timely;
  }

  lemma PlainStep(g: GState, b: Action)
    requires GInv(g) && GEnabled(g, Plain(b))
    ensures var g' := g.(base := Apply(g.base, b));
            GInv(g') && Enabled(Abs(g), b) && Abs(g') == Apply(Abs(g), b)
  {
    var g' := g.(base := Apply(g.base, b));
    PlainKeeps(g, b);
    CallersAllStay(g, b);
    PlainLanded(g, g'.base);
    AbsIsOverlay(g);
    AbsIsOverlay(g');
    if b.Commit? {
      PlainCommit(g, b.t);
      CommitCommutes(g.base, LandedSet(g), b.t, b.ok);
    } else {
      PlainCommutes(g.base, LandedSet(g), b);
    }
    hide GInv, Abs, Apply, Enabled, LandedSet, Overlay;
  }

  /** A plain commit happens only without group commit, when nobody is inside it. */
  lemma PlainCommit(g: GState, t: nat)
    requires GInv(g) && !g.base.cfg.group
    ensures t !in LandedSet(g)
  {
    hide Led, Tickets, Partition, Timely, Posts;
  }

  // ---- the refinement ----

  lemma GStep(g: GState, a: GAction, serial: bool)
    requires GInv(g) && Inv(Abs(g)) && GAllowed(g, a, serial)
    ensures GInv(GApply(g, a)) && Reaches(Abs(g), Sim(g, a), Abs(GApply(g, a)), serial)
  {
    hide GInv, Inv, Abs, Reaches, Apply, Enabled;
    NoActs(Abs(g), serial);
    match a
    case Plain(b) =>
      PlainStep(g, b);
      OneConsumerSame(g, b);
      Extend(Abs(g), [], Abs(g), b, serial);
      assert [] + [b] == [b];
    case Enter(t) => EnterStep(g, t);
    case Flush(t, ok) =>
      FlushKeeps(g, t, ok);
      FlushSim(g, t, ok, serial);
    case Record(t) => RecordStep(g, t);
    case Check(t) => CheckStep(g, t);
    case Stir(t) => Dozes(g, t, Waiting(false));
    case Retry(t, ok) =>
      RetryStep(g, t, ok);
      Extend(Abs(g), [], Abs(g), Commit(t, ok), serial);
      assert [] + [Commit(t, ok)] == [Commit(t, ok)];
  }

  lemma OneConsumerSame(g: GState, b: Action)
    ensures OneConsumer(Abs(g), b) == OneConsumer(g.base, b)
  {
  }

  /** The one-put-per-push steps a run amounts to, step by step. */
  function SimRun(g: GState, acts: seq<GAction>, serial: bool): seq<Action>
    requires GCanRun(g, acts, serial)
    decreases acts
  {
    if acts == [] then [] else Sim(g, acts[0]) + SimRun(GApply(g, acts[0]), acts[1..], serial)
  }

  /**
   Every run of leaders, followers, failed batches and retries is a run of one durable put
   per push, with the same cursors, counters, store, guards and results.
   */
  lemma {:induction false} Refines(g: GState, acts: seq<GAction>)
    requires GInv(g) && Inv(Abs(g)) && GCanRun(g, acts, true)
    ensures var g' := GRun(g, acts, true);
            GInv(g') && Inv(Abs(g')) && Reaches(Abs(g), SimRun(g, acts, true), Abs(g'), true)
    decreases acts
  {
    hide GInv, Inv, Abs, Reaches, Sim;
    if acts == [] {
      NoActs(Abs(g), true);
    } else {
      var g1 := GApply(g, acts[0]);
      GStep(g, acts[0], true);
      ReachKeeps(Abs(g), Sim(g, acts[0]), Abs(g1));
      Refines(g1, acts[1..]);
      Join(Abs(g), Sim(g, acts[0]), Abs(g1), SimRun(g1, acts[1..], true), Abs(GRun(g1, acts[1..], true)), true);
    }
  }

  lemma AbsKeepsQueue(g: GState)
    ensures var s := Abs(g);
            s.q == g.base.q && s.disk == g.base.disk && s.guards == g.base.guards && s.calls == g.base.calls
            && s.h == g.base.h && s.cfg == g.base.cfg && s.threads.Keys == g.base.threads.Keys
  {
  }

  lemma IdleIsItself(base: State, batches: nat := 0)
    requires base.cfg.group ==> base.cfg.durable
    ensures GInv(Idle(base, batches)) && Abs(Idle(base, batches)) == base
  {
    assert Abs(Idle(base, batches)).threads == base.threads;
    assert Batch(map[]) == [];
  }

  // ---- group commit forgets nobody ----

  /** The seqs of the callers with no collected outcome. */
  function Awaiting(g: GState): set<nat> {
    set t | t in g.gpc && Inside(g, t) && !g.gpc[t].Retrying? :: g.base.threads[t].no
  }

  /**
   The seqs with no collected outcome are exactly those pending, in the batch in flight, or
   recorded, each in one of the three; `flushing` holds exactly when one caller leads; and
   nothing is pending unless somebody leads.
   */
  lemma Ownership(g: GState)
    requires GInv(g)
    ensures Awaiting(g) == Nos(g.grp.pending) + Nos(Batch(g.gpc)) + g.grp.done.Keys
    ensures Nos(g.grp.pending) !! Nos(Batch(g.gpc)) !! g.grp.done.Keys
    ensures g.grp.flushing <==> exists l :: l in g.gpc && Leads(g.gpc[l])
    ensures forall l, l' | l in g.gpc && l' in g.gpc && Leads(g.gpc[l]) && Leads(g.gpc[l']) :: l == l'
    ensures g.grp.pending != [] ==> g.grp.flushing
  {
    hide Timely, Posts;
    assert Awaiting(g) == g.joined.Keys by {
      hide Partition, Led;
      forall n | n in g.joined
        ensures n in Awaiting(g)
      {
        assert g.base.threads[g.joined[n].t].no == n;
      }
    }
  }

  /** A sleeping follower's entry is pending or in flight, behind exactly one leader. */
  lemma NoFollowerIsForgotten(g: GState, t: nat)
    requires GInv(g) && t in g.gpc && g.gpc[t] == Waiting(true)
    ensures g.grp.flushing && exists l :: l in g.gpc && Leads(g.gpc[l])
    ensures g.base.threads[t].no in Nos(g.grp.pending) + Nos(Batch(g.gpc))
  {
    CallerKnown(g, t);
    BatchIs(g.gpc, g.grp.flushing, g.grp.pending);
  }

  /** What is recorded of batches: one more each time outcomes are recorded, and the count so far with who joins. */
  lemma GroupRecords(g: GState, a: GAction)
    requires GEnabled(g, a)
    ensures var g' := GApply(g, a);
            && g'.batches == g.batches + One(a.Record?)
            && (a.Enter? ==> g'.joined == g.joined[g.base.threads[a.t].no := Ticket(a.t, g.batches)])
            && (!a.Enter? ==> forall n :: n in g'.joined ==> n in g.joined && g'.joined[n] == g.joined[n])
  {
    hide Apply, PutAll, LandAll, SyncAll, RecordAll, NotifyAllWaiting, DoCommit;
  }

  lemma NosNone(es: seq<Entry>)
    ensures Nos(es) == {} ==> es == []
  {
    if es != [] {
      assert es[0].no in Nos(es);
    }
  }

  /** When every caller has its outcome nothing is left behind. */
  lemma NothingLeftBehind(g: GState)
    requires GInv(g) && forall t :: t in g.gpc ==> g.gpc[t].Retrying?
    ensures g.grp == GroupState([], false, map[]) && Batch(g.gpc) == []
  {
    Ownership(g);
    assert Awaiting(g) == {};
    assert g.grp.done.Keys == {};
    NosNone(g.grp.pending);
    NosNone(Batch(g.gpc));
    hide Timely, Posts, Partition, Tickets;
  }

  /** An entry has an outcome by the second batch recorded after it joined. */
  lemma ByTheSecondBatch(g: GState, t: nat)
    requires GInv(g) && t in g.gpc && !g.gpc[t].Retrying?
    requires g.joined[g.base.threads[t].no].at + 2 <= g.batches
    ensures g.base.threads[t].no in g.grp.done
  {
    CallerKnown(g, t);
    hide Led, Partition, Tickets, Posts;
  }
}
