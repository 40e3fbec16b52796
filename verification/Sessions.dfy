/**
 Delivery at least once, over any number of sessions, each ended by a power loss at any
 point, even inside a commit, or by the process going away.
 */
module Sessions {
  import opened Base
  import opened Protocol
  import opened Invariants
  import opened Theorems
  import opened Group
  import opened GroupRefines

  // ---- what every step keeps of promises ----

  /** Push `i` is stored under `k`, and the disk can hold nothing else there. */
  predicate Kept(d: Disk, k: nat, i: Item) {
    k in d.live && d.live[k] == i && k !in d.lag
  }

  /** Every promised push is stored, byte for byte, on disk, until a delete of it takes effect. */
  ghost predicate PromiseInv(d: Disk, promised: set<Item>, deleted: set<nat>) {
    forall i :: i in promised && i.id !in deleted ==> exists k :: Kept(d, k, i)
  }

  ghost predicate StoredInv(d: Disk, threads: map<nat, Pc>, deleted: set<nat>) {
    forall t :: t in threads && threads[t].Stored? ==>
      threads[t].item.id in deleted || Kept(d, threads[t].no, threads[t].item)
  }

  ghost predicate SyncedInv(threads: map<nat, Pc>, synced: set<Item>) {
    forall t :: t in threads && threads[t].Stored? ==> threads[t].item in synced
  }

  /** Push `id` is in the store, may be on disk, or is being put, under `k`. */
  ghost predicate Somewhere(d: Disk, threads: map<nat, Pc>, k: nat, id: nat) {
    || (k in d.live && d.live[k].id == id)
    || (k in d.lag && exists o :: o in d.lag[k] && o.Some? && o.value.id == id)
    || (exists t :: t in threads && threads[t].Claimed? && threads[t].no == k && threads[t].item.id == id)
  }

  /** A push is under one key, and only pushes already numbered are anywhere. */
  ghost predicate UniqueInv(d: Disk, threads: map<nat, Pc>, nextId: nat) {
    && (forall k: nat, k': nat, id: nat :: Somewhere(d, threads, k, id) && Somewhere(d, threads, k', id) ==> k == k')
    && (forall k: nat, id: nat :: Somewhere(d, threads, k, id) ==> id < nextId)
  }

  /** A durably deleted push is nowhere. */
  ghost predicate GoneInv(d: Disk, threads: map<nat, Pc>, gone: set<nat>, nextId: nat) {
    && (forall id :: id in gone ==> id < nextId)
    && (forall k, id :: id in gone ==> !Somewhere(d, threads, k, id))
  }

  ghost predicate DurInv(s: State) {
    && PromiseInv(s.disk, s.h.promised, s.h.deleted)
    && (s.cfg.durable ==> StoredInv(s.disk, s.threads, s.h.deleted) && SyncedInv(s.threads, s.h.synced))
    && s.h.promised <= s.h.synced
    && UniqueInv(s.disk, s.threads, s.h.nextId)
    && GoneInv(s.disk, s.threads, s.h.gone, s.h.nextId)
  }

  // ---- the store ----

  lemma PutKeeps(d: Disk, k: nat, i: Item, durable: bool)
    requires k !in d.live
    ensures forall k', i' :: Kept(d, k', i') ==> Kept(Put(d, k, i, durable), k', i')
    ensures durable ==> Kept(Put(d, k, i, durable), k, i)
  {
  }

  lemma EraseKeeps(d: Disk, k: nat, durable: bool)
    ensures forall k', i :: Kept(d, k', i) && k' != k ==> Kept(Erase(d, k, durable), k', i)
  {
  }

  /** `d'` and `threads'` hold nothing that `d` and `threads` did not. */
  lemma NoNewPlaces(d: Disk, threads: map<nat, Pc>, d': Disk, threads': map<nat, Pc>, nextId: nat, gone: set<nat>)
    requires UniqueInv(d, threads, nextId) && GoneInv(d, threads, gone, nextId)
    requires forall k, id :: Somewhere(d', threads', k, id) ==> Somewhere(d, threads, k, id)
    ensures UniqueInv(d', threads', nextId) && GoneInv(d', threads', gone, nextId)
  {
  }

  lemma PutPlaces(d: Disk, threads: map<nat, Pc>, t: nat, durable: bool)
    requires t in threads && threads[t].Claimed? && threads[t].no !in d.live
    ensures var Claimed(k, i) := threads[t]; var stored := threads[t := Stored(k, i)];
            forall k', id :: Somewhere(Put(d, k, i, durable), stored, k', id) ==> Somewhere(d, threads, k', id)
  {
    var Claimed(k, i) := threads[t];
    var d', stored := Put(d, k, i, durable), threads[t := Stored(k, i)];
    forall k', id | Somewhere(d', stored, k', id)
      ensures Somewhere(d, threads, k', id)
    {
      if u :| u in stored && stored[u].Claimed? && stored[u].no == k' && stored[u].item.id == id {
        assert threads[u] == stored[u];
      } else if k' == k && i.id == id {
        assert threads[t].no == k' && threads[t].item.id == id;
      }
    }
  }

  lemma ErasePlaces(d: Disk, threads: map<nat, Pc>, k: nat, durable: bool)
    ensures forall k', id :: Somewhere(Erase(d, k, durable), threads, k', id) ==> Somewhere(d, threads, k', id)
    ensures durable && (forall t :: t in threads && threads[t].Claimed? ==> threads[t].no != k) ==>
              forall id :: !Somewhere(Erase(d, k, durable), threads, k, id)
  {
    var d' := Erase(d, k, durable);
    forall k', id | Somewhere(d', threads, k', id)
      ensures Somewhere(d, threads, k', id)
    {
      if k' in d'.lag && exists o :: o in d'.lag[k'] && o.Some? && o.value.id == id {
        var o :| o in d'.lag[k'] && o.Some? && o.value.id == id;
        assert k' == k ==> o in Candidates(d, k);
      }
    }
  }

  lemma ClaimPlaces(d: Disk, threads: map<nat, Pc>, t: nat, k: nat, v: Bytes, nextId: nat, gone: set<nat>)
    requires UniqueInv(d, threads, nextId) && GoneInv(d, threads, gone, nextId)
    ensures var claimed := threads[t := Claimed(k, Item(nextId, v))];
            UniqueInv(d, claimed, nextId + 1) && GoneInv(d, claimed, gone, nextId + 1)
  {
    var claimed := threads[t := Claimed(k, Item(nextId, v))];
    forall k', id | Somewhere(d, claimed, k', id)
      ensures Somewhere(d, threads, k', id) || (k' == k && id == nextId)
    {
      if u :| u in claimed && claimed[u].Claimed? && claimed[u].no == k' && claimed[u].item.id == id {
        assert u != t ==> u in threads && threads[u] == claimed[u];
      }
    }
  }

  /** Threads that stop claiming add no place. */
  lemma FewerClaims(d: Disk, threads: map<nat, Pc>, threads': map<nat, Pc>)
    requires forall t :: t in threads' && threads'[t].Claimed? ==> t in threads && threads[t] == threads'[t]
    ensures forall k, id :: Somewhere(d, threads', k, id) ==> Somewhere(d, threads, k, id)
  {
    forall k, id | Somewhere(d, threads', k, id)
      ensures Somewhere(d, threads, k, id)
    {
      if t :| t in threads' && threads'[t].Claimed? && threads'[t].no == k && threads'[t].item.id == id {
        assert threads[t] == threads'[t];
      }
    }
  }

  // ---- every action keeps them ----

  /** Threads only leave `Claimed` or `Stored`, and the store stays. */
  lemma ThreadsLeave(s: State, s': State)
    requires DurInv(s)
    requires s'.disk == s.disk && s'.guards == s.guards && s'.h == s.h && s'.cfg == s.cfg
    requires forall t :: t in s'.threads && (s'.threads[t].Claimed? || s'.threads[t].Stored?) ==>
      t in s.threads && s'.threads[t] == s.threads[t]
    ensures DurInv(s')
  {
    FewerClaims(s.disk, s.threads, s'.threads);
    NoNewPlaces(s.disk, s.threads, s.disk, s'.threads, s.h.nextId, s.h.gone);
    hide UniqueInv, GoneInv, PromiseInv, Somewhere;
  }

  lemma DurTry(s: State, t: nat, v: Bytes, wait: bool)
    requires DurInv(s) && (t in s.threads ==> s.threads[t].Woken?)
    ensures DurInv(Try(s, t, v, wait))
  {
    if !s.q.closed && Admits(s.cfg, s.q.len, s.q.bytes, |v|) {
      ClaimPlaces(s.disk, s.threads, t, s.q.tail, v, s.h.nextId, s.h.gone);
      hide UniqueInv, GoneInv, PromiseInv, Somewhere;
    } else {
      ThreadsLeave(s, Try(s, t, v, wait));
    }
  }

  lemma DurCommit(s: State, t: nat, ok: bool)
    requires DurInv(s) && Inv(s) && Enabled(s, Commit(t, ok))
    ensures DurInv(DoCommit(s, t, ok))
  {
    hide Inv, UniqueInv, GoneInv, Somewhere, PromiseInv;
    OwnerKnown(s, t);
    var s' := DoCommit(s, t, ok);
    var Claimed(k, i) := s.threads[t];
    if ok {
      PutKeeps(s.disk, k, i, s.cfg.durable);
      PutPlaces(s.disk, s.threads, t, s.cfg.durable);
      hide Put;
      NoNewPlaces(s.disk, s.threads, s'.disk, s'.threads, s.h.nextId, s.h.gone);
      PromisesKept(s.disk, s'.disk, s.h.promised, s.h.deleted);
    } else {
      FewerClaims(s.disk, s.threads, s'.threads);
      NoNewPlaces(s.disk, s.threads, s.disk, s'.threads, s.h.nextId, s.h.gone);
    }
  }

  lemma PromisesKept(d: Disk, d': Disk, promised: set<Item>, deleted: set<nat>)
    requires PromiseInv(d, promised, deleted) && forall k, i :: Kept(d, k, i) ==> Kept(d', k, i)
    ensures PromiseInv(d', promised, deleted)
  {
  }

  lemma DurReturn(s: State, t: nat)
    requires DurInv(s) && Enabled(s, Return(t))
    ensures DurInv(DoReturn(s, t))
  {
    var s' := DoReturn(s, t);
    FewerClaims(s.disk, s.threads, s'.threads);
    NoNewPlaces(s.disk, s.threads, s.disk, s'.threads, s.h.nextId, s.h.gone);
    hide UniqueInv, GoneInv, Somewhere;
    if s.cfg.durable {
      var Stored(k, i) := s.threads[t];
      assert i.id !in s.h.deleted ==> Kept(s.disk, k, i);
    }
  }

  lemma DurDelete(s: State, g: nat, ok: bool)
    requires DurInv(s) && Inv(s) && Enabled(s, Delete(g, ok))
    ensures DurInv(DoDelete(s, g, ok))
  {
    hide Inv;
    GuardKnown(s, g);
    GuardIsLive(s, g);
    if ok {
      NobodyClaims(s, s.guards[g].no);
      hide DurInv;
      DurErase(s, g);
    } else {
      hide UniqueInv, GoneInv, SyncedInv, PromiseInv, StoredInv, Somewhere;
    }
  }

  lemma NobodyClaims(s: State, k: nat)
    requires Inv(s) && k in s.h.book && s.h.book[k].stage.Live?
    ensures forall t :: t in s.threads && s.threads[t].Claimed? ==> s.threads[t].no != k
  {
    hide GuardsMatch, LiveMatch, Exclusive, HeadMatch, Serial, Scans;
  }

  lemma DurErase(s: State, g: nat)
    requires DurInv(s) && Enabled(s, Delete(g, true)) && Lookup(s.disk.live, s.guards[g].no) == Some(s.guards[g].item)
    requires forall t :: t in s.threads && s.threads[t].Claimed? ==> s.threads[t].no != s.guards[g].no
    ensures DurInv(DoDelete(s, g, true))
  {
    var s', k, id := DoDelete(s, g, true), s.guards[g].no, s.guards[g].item.id;
    ErasePlaces(s.disk, s.threads, k, s.cfg.ackDurable);
    NoNewPlaces(s.disk, s.threads, s'.disk, s.threads, s.h.nextId, s.h.gone);
    EraseKeeps(s.disk, k, s.cfg.ackDurable);
    assert GoneInv(s'.disk, s.threads, s'.h.gone, s.h.nextId) by {
      assert Somewhere(s.disk, s.threads, k, id);
    }
    hide UniqueInv, GoneInv, SyncedInv, Erase, Somewhere;
    assert PromiseInv(s'.disk, s.h.promised, s'.h.deleted);
  }

  lemma DurStep(s: State, a: Action)
    requires DurInv(s) && Inv(s) && Enabled(s, a)
    ensures DurInv(Apply(s, a))
  {
    hide Inv;
    match a
    case Arrive(t, v, wait) => DurTry(s, t, v, wait);
    case Recheck(t) => DurTry(s, t, s.threads[t].value, true);
    case Commit(t, ok) => DurCommit(s, t, ok);
    case Return(t) => DurReturn(s, t);
    case Delete(g, ok) => DurDelete(s, g, ok);
    case _ => DurOther(s, a);
  }

  lemma DurOther(s: State, a: Action)
    requires DurInv(s) && Enabled(s, a)
    requires !a.Arrive? && !a.Recheck? && !a.Commit? && !a.Return? && !a.Delete?
    ensures DurInv(Apply(s, a))
  {
    var s' := Apply(s, a);
    hide PromiseInv;
    FewerClaims(s.disk, s.threads, s'.threads);
    NoNewPlaces(s.disk, s.threads, s.disk, s'.threads, s.h.nextId, s.h.gone);
    hide UniqueInv, GoneInv, Somewhere;
  }

  lemma {:induction false} DurRun(s: State, acts: seq<Action>)
    requires DurInv(s) && Inv(s) && CanRun(s, acts, true)
    ensures DurInv(Run(s, acts, true))
    decreases acts
  {
    hide DurInv, Inv;
    if acts != [] {
      DurStep(s, acts[0]);
      StepKeeps(s, acts[0]);
      DurRun(Apply(s, acts[0]), acts[1..]);
    }
  }

  // ---- sessions ----

  /**
   What key `k` may hold after a power loss: what is on disk, what an unsynced write may
   have left there, or the effect of a commit that was under way.
   */
  ghost predicate MaySurvive(s: State, k: nat, o: Option<Item>) {
    || o in Candidates(s.disk, k)
    || (o.Some? && exists t :: t in s.threads && s.threads[t] == Claimed(k, o.value))
    || (o.None? && exists g :: g in s.guards && s.guards[g].phase == Acking && s.guards[g].no == k)
  }

  /** Pushes whose delete is under way. */
  function Deleting(guards: map<nat, Guard>): set<nat> {
    set g | g in guards && guards[g].phase == Acking :: guards[g].item.id
  }

  /** A power loss may carry out a delete that was under way. */
  function Interrupted(s: State): History {
    s.h.(deleted := s.h.deleted + Deleting(s.guards))
  }

  /** Each key independently. */
  ghost predicate Survives(s: State, survivors: map<nat, Item>) {
    forall k: nat :: MaySurvive(s, k, Lookup(survivors, k))
  }

  datatype Event =
    | Step(a: GAction)
    | Crash(survivors: map<nat, Item>, cfg: Config)   // power loss, then a new session
    | Stop(cfg: Config)                               // every handle dropped, then a new session

  /** The settings `Builder` accepts: its asserts, and what its policies amount to. */
  predicate Built(cfg: Config) {
    && 0 < cfg.capacity <= USIZE_MAX && 0 < cfg.maxBytes <= USIZE_MAX
    && (cfg.group ==> cfg.durable) && (cfg.ackDurable ==> cfg.durable)
  }

  ghost predicate Possible(g: GState, e: Event) {
    match e
    case Step(a) => GAllowed(g, a, true)
    case Crash(survivors, cfg) => Survives(Abs(g), survivors) && Built(cfg)
    case Stop(cfg) => Built(cfg)
  }

  function Next(g: GState, e: Event): GState
    requires e.Step? ==> GEnabled(g, e.a)
  {
    match e
    case Step(a) => GApply(g, a)
    case Crash(survivors, cfg) => Idle(Open(cfg, Disk(survivors, map[]), Interrupted(g.base)))
    case Stop(cfg) => Idle(Open(cfg, g.base.disk, g.base.h))
  }

  ghost predicate Happens(g: GState, events: seq<Event>)
    decreases events
  {
    events == [] || (Possible(g, events[0]) && Happens(Next(g, events[0]), events[1..]))
  }

  ghost function After(g: GState, events: seq<Event>): GState
    requires Happens(g, events)
    decreases events
  {
    if events == [] then g else After(Next(g, events[0]), events[1..])
  }

  ghost predicate WorldInv(g: GState) {
    GInv(g) && Inv(Abs(g)) && DurInv(Abs(g))
  }

  // ---- a new session keeps every promise ----

  lemma NoThreads(d: Disk, d': Disk, threads: map<nat, Pc>, nextId: nat, gone: set<nat>)
    requires UniqueInv(d, threads, nextId) && GoneInv(d, threads, gone, nextId)
    requires forall k, id :: Somewhere(d', map[], k, id) ==> Somewhere(d, threads, k, id)
    ensures UniqueInv(d', map[], nextId) && GoneInv(d', map[], gone, nextId)
  {
    NoNewPlaces(d, threads, d', map[], nextId, gone);
  }

  lemma SurvivorPlaces(s: State, survivors: map<nat, Item>)
    requires Survives(s, survivors)
    ensures forall k, id :: Somewhere(Disk(survivors, map[]), map[], k, id) ==> Somewhere(s.disk, s.threads, k, id)
  {
    forall k, id | Somewhere(Disk(survivors, map[]), map[], k, id)
      ensures Somewhere(s.disk, s.threads, k, id)
    {
      var o := Lookup(survivors, k);
      assert MaySurvive(s, k, o);
    }
  }

  /** A stored, synced entry survives any power loss unchanged unless its delete was under way. */
  lemma KeptSurvives(s: State, survivors: map<nat, Item>, k: nat, i: Item)
    requires Inv(s) && Survives(s, survivors)
    requires Kept(s.disk, k, i) && i.id !in Deleting(s.guards)
    ensures Kept(Disk(survivors, map[]), k, i)
  {
    LiveKnown(s, k);
    NobodyClaims(s, k);
    assert forall g :: g in s.guards && s.guards[g].phase == Acking && s.guards[g].no == k ==> s.guards[g].item == i by {
      hide ThreadsMatch, LiveMatch, Exclusive, HeadMatch, Serial, Scans;
    }
    hide Inv;
    assert MaySurvive(s, k, Lookup(survivors, k));
  }

  lemma CrashKeeps(s: State, survivors: map<nat, Item>, cfg: Config)
    requires Inv(s) && DurInv(s) && Survives(s, survivors)
    ensures DurInv(Open(cfg, Disk(survivors, map[]), Interrupted(s)))
  {
    var d := Disk(survivors, map[]);
    forall i | i in s.h.promised && i.id !in Interrupted(s).deleted
      ensures exists k :: Kept(d, k, i)
    {
      var k :| Kept(s.disk, k, i);
      KeptSurvives(s, survivors, k, i);
    }
    hide Inv;
    SurvivorPlaces(s, survivors);
    hide Survives, Somewhere;
    NoThreads(s.disk, d, s.threads, s.h.nextId, s.h.gone);
    hide UniqueInv, GoneInv;
  }

  lemma StopKeeps(s: State, cfg: Config)
    requires DurInv(s)
    ensures DurInv(Open(cfg, s.disk, s.h))
  {
    FewerClaims(s.disk, s.threads, map[]);
    NoThreads(s.disk, s.disk, s.threads, s.h.nextId, s.h.gone);
    hide UniqueInv, GoneInv, PromiseInv, Somewhere;
  }

  lemma EventKeeps(g: GState, e: Event)
    requires WorldInv(g) && Possible(g, e)
    ensures WorldInv(Next(g, e))
  {
    AbsKeepsQueue(g);
    hide GInv, Inv, DurInv, Abs, Survives;
    match e
    case Step(a) =>
      GStep(g, a, true);
      ReachKeeps(Abs(g), Sim(g, a), Abs(GApply(g, a)));
      DurRun(Abs(g), Sim(g, a));
    case Crash(survivors, cfg) =>
      CrashKeeps(Abs(g), survivors, cfg);
      OpenKeeps(cfg, Disk(survivors, map[]), Interrupted(g.base));
      IdleIsItself(Open(cfg, Disk(survivors, map[]), Interrupted(g.base)));
    case Stop(cfg) =>
      StopKeeps(Abs(g), cfg);
      OpenKeeps(cfg, g.base.disk, g.base.h);
      IdleIsItself(Open(cfg, g.base.disk, g.base.h));
  }

  /** A power loss leaves the survivors on disk and nothing unsynced; a reopen leaves the store as it was. */
  lemma ReopenMeans(g: GState, e: Event)
    requires e.Crash? || e.Stop?
    ensures var g' := Next(g, e);
            && g'.base.disk == (if e.Crash? then Disk(e.survivors, map[]) else g.base.disk)
            && g'.base.cfg == e.cfg && g'.base.threads == map[] && g'.base.guards == map[] && g'.base.calls == map[]
            && g'.grp == GroupState([], false, map[]) && g'.gpc == map[]
            && g'.base.h.promised == g.base.h.promised && g'.base.h.gone == g.base.h.gone && g'.base.h.synced == g.base.h.synced
            && (forall id :: id in g'.base.h.deleted <==>
                  id in g.base.h.deleted || (e.Crash? && exists x :: x in g.base.guards && Dying(g.base.guards[x], id)))
  {
    hide Recovered;
    forall id
      ensures id in Deleting(g.base.guards) <==> exists x :: x in g.base.guards && Dying(g.base.guards[x], id)
    {
      if x :| x in g.base.guards && Dying(g.base.guards[x], id) {
        assert g.base.guards[x].item.id in Deleting(g.base.guards);
      }
    }
  }

  /** The delete of push `id` is under way on this guard. */
  predicate Dying(guard: Guard, id: nat) {
    guard.phase == Acking && guard.item.id == id
  }

  lemma PossibleStep(g: GState, e: Event)
    requires Possible(g, e)
    ensures e.Step? ==> GEnabled(g, e.a)
  {
  }

  predicate Grows(h: History, h': History) {
    h.promised <= h'.promised && h.deleted <= h'.deleted && h.gone <= h'.gone && h.synced <= h'.synced
  }

  lemma ActionGrows(s: State, a: Action)
    requires Enabled(s, a)
    ensures Grows(s.h, Apply(s, a).h)
  {
    hide Admits, Wakes, Wake, Rouse, LeastFrom, Jump, Mark, Put, Erase;
  }

  /** Promises and deletes are never taken back. */
  lemma HistoryGrows(g: GState, e: Event)
    requires Possible(g, e)
    ensures Grows(g.base.h, Next(g, e).base.h)
  {
    PossibleStep(g, e);
    hide Survives, OneConsumer, Apply;
    if e.Step? {
      match e.a
      case Plain(b) => ActionGrows(g.base, b);
      case Flush(t, ok) => SyncAllGrows(g.base.h.synced, g.gpc[t].batch);
      case _ =>
    }
  }

  /** A push counts as deleted only once `ack` was called on its guard: its delete committed, or power was lost during it. */
  lemma DeletedByAck(g: GState, e: Event, id: nat)
    requires Possible(g, e) && id in Next(g, e).base.h.deleted && id !in g.base.h.deleted
    ensures exists x :: x in g.base.guards && g.base.guards[x].phase == Acking && g.base.guards[x].item.id == id
  {
    hide Survives, GAllowed, GApply, Open;
    PossibleStep(g, e);
    match e
    case Step(a) => DeletedByStep(g, a, id);
    case Crash(_, _) => OpenHistory(e, g);
    case Stop(_) => OpenHistory(e, g);
  }

  lemma OpenHistory(e: Event, g: GState)
    requires e.Crash? || e.Stop?
    ensures Next(g, e).base.h.deleted == if e.Crash? then Interrupted(g.base).deleted else g.base.h.deleted
  {
  }

  lemma DeletedByStep(g: GState, a: GAction, id: nat)
    requires GEnabled(g, a) && id in GApply(g, a).base.h.deleted && id !in g.base.h.deleted
    ensures exists x :: x in g.base.guards && g.base.guards[x].phase == Acking && g.base.guards[x].item.id == id
  {
    hide PutAll, LandAll, SyncAll, RecordAll, NotifyAllWaiting, Apply, Put, Mark;
    if a.Plain? {
      DeletedByDelete(g.base, a.a, id);
    }
  }

  lemma DeletedByDelete(s: State, a: Action, id: nat)
    requires Enabled(s, a) && id in Apply(s, a).h.deleted && id !in s.h.deleted
    ensures a.Delete? && s.guards[a.g].phase == Acking && s.guards[a.g].item.id == id
  {
    hide Admits, Mark, Jump, Wakes, Wake, Rouse, Put, Erase, LeastFrom;
  }

  lemma {:induction false} SyncAllGrows(synced: set<Item>, es: seq<Entry>)
    ensures synced <= SyncAll(synced, es)
    decreases es
  {
    if es != [] {
      SyncAllGrows(synced + {es[0].item}, es[1..]);
    }
  }

  /**
   At least once: over any sessions and crashes, every push that returned Ok under a
   durable policy is in the store with its own bytes until a delete of it takes effect, and only
   pushes that were in a successful durable commit returned Ok.
   */
  lemma {:induction false} AtLeastOnce(g: GState, events: seq<Event>)
    requires WorldInv(g) && Happens(g, events)
    ensures var g' := After(g, events);
            && WorldInv(g')
            && g.base.h.promised <= g'.base.h.promised <= g'.base.h.synced
            && (forall i :: i in g'.base.h.promised && i.id !in g'.base.h.deleted ==>
                  exists k :: k in g'.base.disk.live && g'.base.disk.live[k] == i)
    decreases events
  {
    hide GInv, Inv, Abs, Survives, GAllowed, OneConsumer, Next;
    if events == [] {
      AbsKeepsQueue(g);
      hide UniqueInv, GoneInv, StoredInv, SyncedInv;
      forall i | i in g.base.h.promised && i.id !in g.base.h.deleted
        ensures exists k :: k in g.base.disk.live && g.base.disk.live[k] == i
      {
        var k :| Kept(g.base.disk, k, i);
      }
    } else {
      hide DurInv;
      PossibleStep(g, events[0]);
      EventKeeps(g, events[0]);
      HistoryGrows(g, events[0]);
      AtLeastOnce(Next(g, events[0]), events[1..]);
    }
  }

  /** A push whose delete was durably committed is never in the store again, in any later session. */
  lemma {:induction false} DurableAckIsFinal(g: GState, events: seq<Event>, id: nat)
    requires WorldInv(g) && Happens(g, events) && id in g.base.h.gone
    ensures forall k :: k in After(g, events).base.disk.live ==> After(g, events).base.disk.live[k].id != id
    decreases events
  {
    hide GInv, Inv, Abs, Survives, GAllowed, OneConsumer, Next;
    if events == [] {
      AbsKeepsQueue(g);
      forall k | k in g.base.disk.live
        ensures g.base.disk.live[k].id != id
      {
        assert Somewhere(g.base.disk, Abs(g).threads, k, g.base.disk.live[k].id);
      }
    } else {
      hide DurInv;
      PossibleStep(g, events[0]);
      EventKeeps(g, events[0]);
      HistoryGrows(g, events[0]);
      DurableAckIsFinal(Next(g, events[0]), events[1..], id);
    }
  }

  lemma FreshDurable(cfg: Config)
    ensures DurInv(Open(cfg, Disk(map[], map[]), NoHistory()))
  {
    var s := Open(cfg, Disk(map[], map[]), NoHistory());
    assert forall k, id :: !Somewhere(s.disk, s.threads, k, id);
    hide Somewhere;
  }

  /** The world starts with an empty store. */
  lemma Beginning(cfg: Config)
    requires Built(cfg)
    ensures WorldInv(Idle(Open(cfg, Disk(map[], map[]), NoHistory())))
  {
    hide Inv, GInv, Abs, DurInv, Open;
    OpenKeeps(cfg, Disk(map[], map[]), NoHistory());
    FreshDurable(cfg);
    OpenCfg(cfg, Disk(map[], map[]), NoHistory());
    IdleIsItself(Open(cfg, Disk(map[], map[]), NoHistory()));
  }

  lemma OpenCfg(cfg: Config, disk: Disk, h: History)
    ensures Open(cfg, disk, h).cfg == cfg
  {
  }

  /** With acks not synced, an acked entry may come back after a power loss. */
  lemma UnsyncedAckMayReturn(s: State, g: nat)
    requires BookInv(s) && Enabled(s, Delete(g, true)) && !s.cfg.ackDurable && s.disk.lag == map[]
    ensures Survives(DoDelete(s, g, true), s.disk.live)
    ensures Lookup(s.disk.live, s.guards[g].no) == Some(s.guards[g].item)
  {
    LiveKnown(s, s.guards[g].no);
    hide ThreadsMatch, LiveMatch;
    var s' := DoDelete(s, g, true);
    forall k: nat
      ensures MaySurvive(s', k, Lookup(s.disk.live, k))
    {
      assert Lookup(s.disk.live, k) in Candidates(s'.disk, k);
    }
  }

  // ---- every state any history can reach ----

  /** The first session, on an empty store. */
  function Start(cfg: Config): GState {
    Idle(Open(cfg, Disk(map[], map[]), NoHistory()))
  }

  ghost predicate Reachable(g: GState) {
    exists cfg, events :: Built(cfg) && Happens(Start(cfg), events) && After(Start(cfg), events) == g
  }

  lemma ReachableIsSound(g: GState)
    requires Reachable(g)
    ensures GInv(g) && Inv(Abs(g)) && DurInv(Abs(g))
  {
    hide Happens, After, GInv, Inv, DurInv, Abs, Open;
    var cfg, events :| Built(cfg) && Happens(Start(cfg), events) && After(Start(cfg), events) == g;
    Beginning(cfg);
    AtLeastOnce(Start(cfg), events);
  }

  // ---- histories put together ----

  ghost predicate Becomes(g: GState, events: seq<Event>, g': GState) {
    Happens(g, events) && After(g, events) == g'
  }

  function Steps(acts: seq<GAction>): (events: seq<Event>)
    ensures |events| == |acts| && forall i :: 0 <= i < |acts| ==> events[i] == Step(acts[i])
  {
    seq(|acts|, i requires 0 <= i < |acts| => Step(acts[i]))
  }

  lemma {:induction false} StepsHappen(g: GState, acts: seq<GAction>)
    requires GCanRun(g, acts, true)
    ensures Becomes(g, Steps(acts), GRun(g, acts, true))
    decreases acts
  {
    hide GEnabled, OneConsumer, GApply;
    if acts != [] {
      assert Steps(acts)[1..] == Steps(acts[1..]);
      StepsHappen(GApply(g, acts[0]), acts[1..]);
    }
  }

  lemma {:induction false} HistoriesJoin(g: GState, a: seq<Event>, g1: GState, b: seq<Event>, g2: GState)
    requires Becomes(g, a, g1) && Becomes(g1, b, g2)
    ensures Becomes(g, a + b, g2)
    decreases a
  {
    hide Possible, Next;
    if a == [] {
      assert a + b == b;
    } else {
      PossibleStep(g, a[0]);
      HistoriesJoin(Next(g, a[0]), a[1..], g1, b, g2);
      assert (a + b)[1..] == a[1..] + b && (a + b)[0] == a[0];
    }
  }
}
