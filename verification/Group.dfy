/**
 Group commit: concurrent pushes share one fsync. The first caller leads and flushes the
 pending batch; the rest wait for their seq's outcome; a failed batch is retried entry by
 entry. `base` is the queue around it, where a thread inside `group_commit` is still at
 `Claimed`; `gpc` says where in `group_commit` it is.
 */
module Group {
  import opened Base
  import opened Protocol
  import opened Invariants

  /** A pending entry; `t`, the caller it belongs to, is only recorded. */
  datatype Entry = Entry(t: nat, no: nat, item: Item)

  datatype Gpc =
    | Waiting(asleep: bool)                    // a follower, waiting on `group_ready` or woken
    | Leading(batch: seq<Entry>)               // the leader, batch taken but not committed
    | Recording(batch: seq<Entry>, ok: bool)   // batch committed or failed, outcomes not recorded
    | Retrying                                 // collected a failure, about to commit alone

  datatype GroupState = GroupState(pending: seq<Entry>, flushing: bool, done: map<nat, bool>)

  /** Who waits for a seq's outcome, and how many batches had been recorded when it joined. */
  datatype Ticket = Ticket(t: nat, at: nat)

  datatype GState = GState(
    base: State, grp: GroupState, gpc: map<nat, Gpc>,
    joined: map<nat, Ticket>, batches: nat)   // these two only record

  datatype GAction =
    | Plain(a: Action)            // a step outside `group_commit`
    | Enter(t: nat)               // lock, push to pending, lead or wait
    | Flush(t: nat, ok: bool)     // the leader's commit
    | Record(t: nat)              // lock, record outcomes, notify all, take the next batch or leave
    | Check(t: nat)               // a woken follower looks for its outcome
    | Stir(t: nat)                // a spurious wake on `group_ready`
    | Retry(t: nat, ok: bool)     // the lone commit after a failed batch

  // ---- steps ----

  predicate Inside(g: GState, t: nat) {
    t in g.gpc && t in g.base.threads && g.base.threads[t].Claimed?
  }

  predicate CanEnter(g: GState, t: nat) {
    g.base.cfg.group && t !in g.gpc && t in g.base.threads && g.base.threads[t].Claimed?
  }

  predicate GEnabled(g: GState, a: GAction) {
    match a
    case Plain(b) => Enabled(g.base, b) && (b.Commit? ==> !g.base.cfg.group)
    case Enter(t) => CanEnter(g, t)
    case Flush(t, ok) => Inside(g, t) && g.gpc[t].Leading?
    case Record(t) => Inside(g, t) && g.gpc[t].Recording?
    case Check(t) => Inside(g, t) && g.gpc[t] == Waiting(false)
    case Stir(t) => Inside(g, t) && g.gpc[t] == Waiting(true)
    case Retry(t, ok) => Inside(g, t) && g.gpc[t].Retrying?
  }

  function PutAll(d: Disk, es: seq<Entry>): Disk
    decreases es
  {
    if es == [] then d else PutAll(Put(d, es[0].no, es[0].item, true), es[1..])
  }

  function LandAll(book: map<nat, Life>, es: seq<Entry>): map<nat, Life>
    decreases es
  {
    if es == [] then book else LandAll(Mark(book, es[0].no, Live), es[1..])
  }

  function SyncAll(synced: set<Item>, es: seq<Entry>): set<Item>
    decreases es
  {
    if es == [] then synced else SyncAll(synced + {es[0].item}, es[1..])
  }

  function Nos(es: seq<Entry>): set<nat> {
    set e | e in es :: e.no
  }

  /** `done.insert(flushed, ok)` for the whole batch. */
  function RecordAll(done: map<nat, bool>, es: seq<Entry>, ok: bool): map<nat, bool> {
    map n | n in done.Keys + Nos(es) :: if n in Nos(es) then ok else done[n]
  }

  function NotifyAllWaiting(gpc: map<nat, Gpc>): map<nat, Gpc> {
    map t | t in gpc :: if gpc[t].Waiting? then Waiting(false) else gpc[t]
  }

  /** Take this caller's outcome: Ok returns, anything else retries. */
  function Collect(g: GState, t: nat): GState
    requires Inside(g, t)
  {
    var Claimed(n, item) := g.base.threads[t];
    var g' := g.(grp := g.grp.(done := g.grp.done - {n}), joined := g.joined - {n});
    if Lookup(g.grp.done, n) == Some(true) then
      g'.(base := g.base.(threads := g.base.threads[t := Stored(n, item)]), gpc := g.gpc - {t})
    else
      g'.(gpc := g.gpc[t := Retrying])
  }

  function DoEnter(g: GState, t: nat): GState
    requires CanEnter(g, t)
  {
    var Claimed(n, item) := g.base.threads[t];
    var pending := g.grp.pending + [Entry(t, n, item)];
    var g' := g.(joined := g.joined[n := Ticket(t, g.batches)]);
    if g.grp.flushing then
      g'.(grp := g.grp.(pending := pending), gpc := g.gpc[t := Waiting(true)])
    else
      g'.(grp := g.grp.(pending := [], flushing := true), gpc := g.gpc[t := Leading(pending)])
  }

  function DoFlush(g: GState, t: nat, ok: bool): GState
    requires Inside(g, t) && g.gpc[t].Leading?
  {
    var batch := g.gpc[t].batch;
    var g' := g.(gpc := g.gpc[t := Recording(batch, ok)]);
    if ok then
      g'.(base := g.base.(disk := PutAll(g.base.disk, batch),
      h := g.base.h.(book := LandAll(g.base.h.book, batch), synced := SyncAll(g.base.h.synced, batch))))
    else
      g'
  }

  function DoRecord(g: GState, t: nat): GState
    requires Inside(g, t) && g.gpc[t].Recording?
  {
    var Recording(batch, ok) := g.gpc[t];
    var g' := g.(grp := g.grp.(done := RecordAll(g.grp.done, batch, ok)),
              gpc := NotifyAllWaiting(g.gpc), batches := g.batches + 1);
    if g.grp.pending == [] then
      Collect(g'.(grp := g'.grp.(flushing := false)), t)
    else
      g'.(grp := g'.grp.(pending := []), gpc := g'.gpc[t := Leading(g.grp.pending)])
  }

  function DoCheck(g: GState, t: nat): GState
    requires Inside(g, t) && g.gpc[t] == Waiting(false)
  {
    if g.base.threads[t].no in g.grp.done then Collect(g, t) else g.(gpc := g.gpc[t := Waiting(true)])
  }

  function GApply(g: GState, a: GAction): GState
    requires GEnabled(g, a)
  {
    match a
    case Plain(b) => g.(base := Apply(g.base, b))
    case Enter(t) => DoEnter(g, t)
    case Flush(t, ok) => DoFlush(g, t, ok)
    case Record(t) => DoRecord(g, t)
    case Check(t) => DoCheck(g, t)
    case Stir(t) => g.(gpc := g.gpc[t := Waiting(false)])
    case Retry(t, ok) => g.(base := DoCommit(g.base, t, ok), gpc := g.gpc - {t})
  }

  // ---- who holds which seq ----

  predicate Leads(pc: Gpc) { pc.Leading? || pc.Recording? }

  predicate NoDup(es: seq<Entry>) {
    forall i, j :: 0 <= i < j < |es| ==> es[i].no != es[j].no
  }

  /** Entry `e` is waited for by the caller on its ticket. */
  predicate Ticketed(threads: map<nat, Pc>, gpc: map<nat, Gpc>, joined: map<nat, Ticket>, e: Entry) {
    && e.no in joined && joined[e.no].t == e.t && e.t in gpc
    && e.t in threads && threads[e.t] == Claimed(e.no, e.item)
  }

  /** Tickets and the callers inside `group_commit` match one to one. */
  ghost predicate Tickets(threads: map<nat, Pc>, gpc: map<nat, Gpc>, joined: map<nat, Ticket>) {
    && (forall t :: t in gpc ==> t in threads && threads[t].Claimed?)
    && (forall t :: t in gpc && !gpc[t].Retrying? ==>
      threads[t].no in joined && joined[threads[t].no].t == t)
    && (forall n :: n in joined ==>
      joined[n].t in gpc && !gpc[joined[n].t].Retrying? && threads[joined[n].t].no == n)
  }

  /**
   The seqs with no collected outcome are exactly the disjoint union of the pending ones,
   the batch in flight and the recorded outcomes.
   */
  ghost predicate Partition(joined: map<nat, Ticket>, pending: seq<Entry>, batch: seq<Entry>, done: map<nat, bool>) {
    && joined.Keys == Nos(pending) + Nos(batch) + done.Keys
    && Nos(pending) !! Nos(batch) !! done.Keys
    && NoDup(pending) && NoDup(batch)
  }

  /** A pending entry joined since the last batch was recorded; one in flight at most one batch earlier. */
  ghost predicate Timely(threads: map<nat, Pc>, gpc: map<nat, Gpc>, joined: map<nat, Ticket>,
                         pending: seq<Entry>, batch: seq<Entry>, batches: nat)
  {
    && (forall e :: e in pending ==>
      Ticketed(threads, gpc, joined, e) && joined[e.no].at == batches && gpc[e.t].Waiting?)
    && (forall e :: e in batch ==> Ticketed(threads, gpc, joined, e) && batches <= joined[e.no].at + 1)
  }

  /** Only a leader flushes; nobody sleeps on a recorded outcome; a leader's own seq is taken. */
  ghost predicate Posts(threads: map<nat, Pc>, gpc: map<nat, Gpc>, done: map<nat, bool>)
    requires forall t :: t in gpc ==> t in threads && threads[t].Claimed?
  {
    && (forall t :: t in gpc && gpc[t] == Waiting(true) ==> threads[t].no !in done)
    && (forall l :: l in gpc && Leads(gpc[l]) ==> threads[l].no in Nos(gpc[l].batch) + done.Keys)
  }

  /** `flushing` holds exactly when there is one leader, and nothing is pending without one. */
  ghost predicate Led(gpc: map<nat, Gpc>, flushing: bool, pending: seq<Entry>) {
    && (forall l, l' :: l in gpc && l' in gpc && Leads(gpc[l]) && Leads(gpc[l']) ==> l == l')
    && (flushing <==> exists l :: l in gpc && Leads(gpc[l]))
    && (pending != [] ==> flushing)
  }

  /** The batch in flight: taken by the leader, its outcomes not yet recorded. */
  ghost function Batch(gpc: map<nat, Gpc>): seq<Entry> {
    if l :| l in gpc && Leads(gpc[l]) then gpc[l].batch else []
  }

  ghost predicate GInv(g: GState) {
    && Led(g.gpc, g.grp.flushing, g.grp.pending)
    && Tickets(g.base.threads, g.gpc, g.joined)
    && Partition(g.joined, g.grp.pending, Batch(g.gpc), g.grp.done)
    && Timely(g.base.threads, g.gpc, g.joined, g.grp.pending, Batch(g.gpc), g.batches)
    && Posts(g.base.threads, g.gpc, g.grp.done)
    && (g.gpc != map[] ==> g.base.cfg.group)
    && (g.base.cfg.group ==> g.base.cfg.durable)
  }

  // ---- each part, kept by each kind of step ----

  lemma BatchIs(gpc: map<nat, Gpc>, flushing: bool, pending: seq<Entry>)
    requires Led(gpc, flushing, pending)
    ensures forall l :: l in gpc && Leads(gpc[l]) ==> Batch(gpc) == gpc[l].batch
    ensures !flushing ==> Batch(gpc) == [] && pending == []
  {
  }

  lemma LedEnter(gpc: map<nat, Gpc>, pending: seq<Entry>, t: nat, es: seq<Entry>)
    requires t !in gpc
    ensures Led(gpc, true, pending) ==>
              Led(gpc[t := Waiting(true)], true, es) && Batch(gpc[t := Waiting(true)]) == Batch(gpc)
    ensures Led(gpc, false, pending) ==> Led(gpc[t := Leading(es)], true, []) && Batch(gpc[t := Leading(es)]) == es
  {
    var waits, leads := gpc[t := Waiting(true)], gpc[t := Leading(es)];
    if Led(gpc, true, pending) {
      var l :| l in gpc && Leads(gpc[l]);
      assert l in waits && Leads(waits[l]);
      BatchIs(gpc, true, pending);
      BatchIs(waits, true, es);
    }
    if Led(gpc, false, pending) {
      assert t in leads && Leads(leads[t]);
      assert forall l :: l in gpc ==> !Leads(gpc[l]);
      BatchIs(leads, true, []);
    }
  }

  /** The leader `l` moves on, to a batch `es` or out, and followers change as they like. */
  lemma LedMove(gpc: map<nat, Gpc>, gpc': map<nat, Gpc>, pending: seq<Entry>, pending': seq<Entry>, l: nat)
    requires Led(gpc, true, pending) && l in gpc && Leads(gpc[l])
    requires forall t :: t in gpc' && t != l ==> t in gpc && Leads(gpc'[t]) == Leads(gpc[t])
    ensures l in gpc' && Leads(gpc'[l]) ==> Led(gpc', true, pending') && Batch(gpc') == gpc'[l].batch
    ensures !(l in gpc' && Leads(gpc'[l])) && pending' == [] ==> Led(gpc', false, pending') && Batch(gpc') == []
  {
    if l in gpc' && Leads(gpc'[l]) {
      BatchIs(gpc', true, pending');
    } else if pending' == [] {
      BatchIs(gpc', false, pending');
    }
  }

  /** A caller that does not lead moves on. */
  lemma LedFollow(gpc: map<nat, Gpc>, flushing: bool, pending: seq<Entry>, t: nat, pc: Gpc)
    requires Led(gpc, flushing, pending) && t in gpc && !Leads(gpc[t]) && !Leads(pc)
    ensures Led(gpc[t := pc], flushing, pending) && Batch(gpc[t := pc]) == Batch(gpc)
    ensures Led(gpc - {t}, flushing, pending) && Batch(gpc - {t}) == Batch(gpc)
  {
    var moved, rest := gpc[t := pc], gpc - {t};
    if l :| l in gpc && Leads(gpc[l]) {
      assert l in moved && Leads(moved[l]);
      assert l in rest && Leads(rest[l]);
    }
    BatchIs(gpc, flushing, pending);
    BatchIs(moved, flushing, pending);
    BatchIs(rest, flushing, pending);
  }

  lemma TicketsEnter(threads: map<nat, Pc>, gpc: map<nat, Gpc>, joined: map<nat, Ticket>, t: nat, pc: Gpc, at: nat)
    requires Tickets(threads, gpc, joined) && t !in gpc && t in threads && threads[t].Claimed? && !pc.Retrying?
    requires threads[t].no !in joined
    ensures Tickets(threads, gpc[t := pc], joined[threads[t].no := Ticket(t, at)])
  {
  }

  lemma TicketsMove(threads: map<nat, Pc>, gpc: map<nat, Gpc>, gpc': map<nat, Gpc>, joined: map<nat, Ticket>)
    requires Tickets(threads, gpc, joined) && gpc'.Keys == gpc.Keys
    requires forall t :: t in gpc ==> gpc'[t].Retrying? == gpc[t].Retrying?
    ensures Tickets(threads, gpc', joined)
  {
  }

  lemma TicketsCollect(threads: map<nat, Pc>, gpc: map<nat, Gpc>, joined: map<nat, Ticket>, t: nat, pc: Pc)
    requires Tickets(threads, gpc, joined) && t in gpc && !gpc[t].Retrying?
    ensures var left := joined - {threads[t].no};
            Tickets(threads, gpc[t := Retrying], left) && Tickets(threads[t := pc], gpc - {t}, left)
  {
  }

  lemma TicketsLeave(threads: map<nat, Pc>, gpc: map<nat, Gpc>, joined: map<nat, Ticket>, t: nat, pc: Pc)
    requires Tickets(threads, gpc, joined) && t in gpc && gpc[t].Retrying?
    ensures Tickets(threads[t := pc], gpc - {t}, joined)
  {
  }

  lemma TicketsPlain(threads: map<nat, Pc>, threads': map<nat, Pc>, gpc: map<nat, Gpc>, joined: map<nat, Ticket>)
    requires Tickets(threads, gpc, joined)
    requires forall t :: t in gpc ==> t in threads' && threads'[t] == threads[t]
    ensures Tickets(threads', gpc, joined)
  {
  }

  lemma NosAppend(es: seq<Entry>, e: Entry)
    ensures Nos(es + [e]) == Nos(es) + {e.no}
    ensures e.no !in Nos(es) && NoDup(es) ==> NoDup(es + [e])
  {
    assert forall x :: x in es + [e] <==> x in es || x == e;
    if e.no !in Nos(es) && NoDup(es) {
      forall i, j | 0 <= i < j < |es + [e]|
        ensures (es + [e])[i].no != (es + [e])[j].no
      {
        assert i < |es| && es[i] in es;
      }
    }
  }

  lemma PartitionEnter(joined: map<nat, Ticket>, pending: seq<Entry>, batch: seq<Entry>, done: map<nat, bool>,
                       e: Entry, ticket: Ticket)
    requires Partition(joined, pending, batch, done) && e.no !in joined
    ensures Partition(joined[e.no := ticket], pending + [e], batch, done)
    ensures batch == [] ==> Partition(joined[e.no := ticket], [], pending + [e], done)
  {
    NosAppend(pending, e);
  }

  /** Recording a batch moves its seqs to `done` and puts the pending ones in flight. */
  lemma PartitionRecord(joined: map<nat, Ticket>, pending: seq<Entry>, batch: seq<Entry>, done: map<nat, bool>, ok: bool)
    requires Partition(joined, pending, batch, done)
    ensures Partition(joined, [], pending, RecordAll(done, batch, ok))
  {
    assert RecordAll(done, batch, ok).Keys == done.Keys + Nos(batch);
  }

  lemma PartitionCollect(joined: map<nat, Ticket>, pending: seq<Entry>, batch: seq<Entry>, done: map<nat, bool>, n: nat)
    requires Partition(joined, pending, batch, done) && n in done
    ensures Partition(joined - {n}, pending, batch, done - {n})
  {
    assert (joined - {n}).Keys == joined.Keys - {n};
    assert (done - {n}).Keys == done.Keys - {n};
  }

  lemma TimelyEnter(threads: map<nat, Pc>, gpc: map<nat, Gpc>, joined: map<nat, Ticket>,
                    pending: seq<Entry>, batch: seq<Entry>, batches: nat, t: nat, pc: Gpc)
    requires Timely(threads, gpc, joined, pending, batch, batches) && t !in gpc && !pc.Retrying?
    requires t in threads && threads[t].Claimed? && threads[t].no !in joined
    ensures var e := Entry(t, threads[t].no, threads[t].item);
            var joined' := joined[e.no := Ticket(t, batches)];
            && (pc.Waiting? ==> Timely(threads, gpc[t := pc], joined', pending + [e], batch, batches))
            && (pending == [] && batch == [] ==> Timely(threads, gpc[t := pc], joined', [], [e], batches))
  {
  }

  lemma TimelyMove(threads: map<nat, Pc>, threads': map<nat, Pc>, gpc: map<nat, Gpc>, gpc': map<nat, Gpc>,
                   joined: map<nat, Ticket>, pending: seq<Entry>, batch: seq<Entry>, batches: nat)
    requires Timely(threads, gpc, joined, pending, batch, batches)
    requires forall t :: t in gpc ==> t in threads' && t in threads && threads'[t] == threads[t]
    requires forall t :: t in gpc ==> t in gpc' && gpc'[t].Waiting? == gpc[t].Waiting?
    ensures Timely(threads', gpc', joined, pending, batch, batches)
  {
  }

  lemma TimelyRecord(threads: map<nat, Pc>, gpc: map<nat, Gpc>, gpc': map<nat, Gpc>, joined: map<nat, Ticket>,
                     pending: seq<Entry>, batch: seq<Entry>, batches: nat)
    requires Timely(threads, gpc, joined, pending, batch, batches) && gpc'.Keys == gpc.Keys
    ensures Timely(threads, gpc', joined, [], pending, batches + 1)
  {
  }

  /** A caller whose outcome is recorded leaves; the entries still waiting keep their tickets. */
  lemma TimelyLeave(threads: map<nat, Pc>, gpc: map<nat, Gpc>, joined: map<nat, Ticket>,
                    pending: seq<Entry>, batch: seq<Entry>, batches: nat, t: nat, pc: Pc)
    requires Timely(threads, gpc, joined, pending, batch, batches)
    requires t in threads && threads[t].Claimed?
    requires threads[t].no !in Nos(pending) + Nos(batch)
    ensures var left := joined - {threads[t].no};
            && Timely(threads, gpc[t := Retrying], left, pending, batch, batches)
            && Timely(threads[t := pc], gpc - {t}, left, pending, batch, batches)
            && Timely(threads[t := pc], gpc - {t}, joined, pending, batch, batches)
  {
  }
}
