/** What a reopen may write over, over whole histories. */
module Reopens {
  import opened Base
  import opened Protocol
  import opened Invariants
  import opened Theorems
  import opened Group
  import opened GroupRefines
  import opened GroupLifts
  import opened Overwrite
  import opened Sessions

  // ---- what the disk may hold beside the store has been deleted ----

  ghost predicate StaleInv(d: Disk, deleted: set<nat>) {
    && LagHolds(d)
    && forall k: nat, i: Item :: Some(i) in Candidates(d, k) && Lookup(d.live, k) != Some(i) ==> i.id in deleted
  }

  lemma StalePut(d: Disk, k: nat, i: Item, durable: bool, deleted: set<nat>)
    requires StaleInv(d, deleted) && k !in d.live
    ensures StaleInv(Put(d, k, i, durable), deleted)
  {
    var d' := Put(d, k, i, durable);
    forall j: nat, o: Item | Some(o) in Candidates(d', j) && Lookup(d'.live, j) != Some(o)
      ensures o.id in deleted
    {
      assert Some(o) in Candidates(d, j);
    }
  }

  lemma StaleErase(d: Disk, k: nat, durable: bool, deleted: set<nat>)
    requires StaleInv(d, deleted) && k in d.live
    ensures StaleInv(Erase(d, k, durable), deleted + {d.live[k].id})
  {
    var d' := Erase(d, k, durable);
    forall j: nat, o: Item | Some(o) in Candidates(d', j) && Lookup(d'.live, j) != Some(o)
      ensures o.id in deleted + {d.live[k].id}
    {
      assert Some(o) in Candidates(d, j);
    }
  }

  lemma StaleStep(s: State, a: Action)
    requires Inv(s) && StaleInv(s.disk, s.h.deleted) && Enabled(s, a)
    ensures StaleInv(Apply(s, a).disk, Apply(s, a).h.deleted)
  {
    hide Inv, StaleInv, Put, Erase;
    match a
    case Commit(t, ok) =>
      OwnerKnown(s, t);
      StalePut(s.disk, s.threads[t].no, s.threads[t].item, s.cfg.durable, s.h.deleted);
    case Delete(g, ok) =>
      GuardKnown(s, g);
      InStoreNow(s, s.guards[g].no);
      StaleErase(s.disk, s.guards[g].no, s.cfg.ackDurable, s.h.deleted);
    case _ =>
  }

  lemma InStoreNow(s: State, k: nat)
    requires Inv(s) && k in s.h.book && s.h.book[k].stage.Live?
    ensures k in s.disk.live && s.disk.live[k] == s.h.book[k].item
  {
    LiveKnown(s, k);
  }

  lemma {:induction false} StaleRun(s: State, acts: seq<Action>)
    requires Inv(s) && StaleInv(s.disk, s.h.deleted) && CanRun(s, acts, true)
    ensures StaleInv(Run(s, acts, true).disk, Run(s, acts, true).h.deleted)
    decreases acts
  {
    hide Inv, StaleInv;
    if acts != [] {
      StaleStep(s, acts[0]);
      StepKeeps(s, acts[0]);
      StaleRun(Apply(s, acts[0]), acts[1..]);
    }
  }

  lemma StaleOpen(cfg: Config, d: Disk, h: History)
    requires StaleInv(d, h.deleted)
    ensures StaleInv(Open(cfg, d, h).disk, Open(cfg, d, h).h.deleted)
  {
    hide StaleInv;
  }

  lemma StaleSurvivors(cfg: Config, survivors: map<nat, Item>, h: History)
    ensures var s := Open(cfg, Disk(survivors, map[]), h); StaleInv(s.disk, s.h.deleted)
  {
    var s := Open(cfg, Disk(survivors, map[]), h);
    assert s.disk == Disk(survivors, map[]);
    hide Open;
  }

  lemma StaleEvent(g: GState, e: Event)
    requires WorldInv(g) && StaleInv(g.base.disk, g.base.h.deleted) && Possible(g, e)
    ensures StaleInv(Next(g, e).base.disk, Next(g, e).base.h.deleted)
  {
    hide GInv, Inv, DurInv, Abs, StaleInv, Open, Survives;
    match e
    case Step(a) =>
      AbsKeepsQueue(g);
      GStep(g, a, true);
      StaleRun(Abs(g), Sim(g, a));
      AbsKeepsQueue(GApply(g, a));
      hide GApply, Sim;
    case Crash(survivors, cfg) => StaleSurvivors(cfg, survivors, Interrupted(g.base));
    case Stop(cfg) => StaleOpen(cfg, g.base.disk, g.base.h);
  }

  lemma {:induction false} StaleHistory(g: GState, events: seq<Event>)
    requires WorldInv(g) && StaleInv(g.base.disk, g.base.h.deleted) && Happens(g, events)
    ensures StaleInv(After(g, events).base.disk, After(g, events).base.h.deleted)
    decreases events
  {
    hide WorldInv, StaleInv, Possible, Next;
    if events != [] {
      PossibleStep(g, events[0]);
      EventKeeps(g, events[0]);
      StaleEvent(g, events[0]);
      StaleHistory(Next(g, events[0]), events[1..]);
    }
  }

  lemma StaleReachable(g: GState)
    requires Reachable(g)
    ensures StaleInv(g.base.disk, g.base.h.deleted)
  {
    hide Happens, After, GInv, Inv, DurInv, Abs, Open, StaleInv;
    var cfg, events :| Built(cfg) && Happens(Start(cfg), events) && After(Start(cfg), events) == g;
    Beginning(cfg);
    assert StaleInv(Start(cfg).base.disk, Start(cfg).base.h.deleted) by {
      StaleSurvivors(cfg, map[], NoHistory());
    }
    StaleHistory(Start(cfg), events);
  }

  /** In every reachable state, what a push on its way could write over on disk has been deleted. */
  lemma OverwritesOnlyDeleted(g: GState, t: nat, i: Item)
    requires Reachable(g) && t in Abs(g).threads && Abs(g).threads[t].Claimed?
    requires Some(i) in Candidates(g.base.disk, Abs(g).threads[t].no)
    ensures i.id in g.base.h.deleted
  {
    hide Reachable, GInv, Inv, DurInv, Candidates;
    ReachableIsSound(g);
    StaleReachable(g);
    OwnerKnown(Abs(g), t);
    AbsKeepsQueue(g);
    hide Abs;
  }

  // ---- what a power loss may leave ----

  /** A power loss is always possible: everything the process sees may be on disk. */
  lemma AllMaySurvive(g: GState)
    requires Reachable(g)
    ensures Survives(Abs(g), g.base.disk.live)
  {
    hide Reachable, StaleInv;
    StaleReachable(g);
    AbsKeepsQueue(g);
    LiveSurvives(Abs(g)) by {
      StaleHolds(g.base.disk, g.base.h.deleted);
    }
    hide Abs, Survives;
  }

  lemma StaleHolds(d: Disk, deleted: set<nat>)
    requires StaleInv(d, deleted)
    ensures LagHolds(d)
  {
  }

  lemma LiveSurvives(s: State)
    requires LagHolds(s.disk)
    ensures Survives(s, s.disk.live)
  {
    forall k: nat
      ensures MaySurvive(s, k, Lookup(s.disk.live, k))
    {
      assert Lookup(s.disk.live, k) in Candidates(s.disk, k);
    }
  }

  /** A commit under way when power is lost may have reached the disk, or not; so may a delete. */
  lemma TornCommits(s: State, t: nat, g: nat)
    requires LagHolds(s.disk)
    ensures t in s.threads && s.threads[t].Claimed? ==> Survives(s, s.disk.live[s.threads[t].no := s.threads[t].item])
    ensures g in s.guards && s.guards[g].phase == Acking ==> Survives(s, s.disk.live - {s.guards[g].no})
  {
    LiveSurvives(s);
    if t in s.threads && s.threads[t].Claimed? {
      var Claimed(k, i) := s.threads[t];
      var more := s.disk.live[k := i];
      forall j: nat
        ensures MaySurvive(s, j, Lookup(more, j))
      {
        assert j != k ==> MaySurvive(s, j, Lookup(s.disk.live, j));
      }
    }
    if g in s.guards && s.guards[g].phase == Acking {
      var left := s.disk.live - {s.guards[g].no};
      forall j: nat
        ensures MaySurvive(s, j, Lookup(left, j))
      {
        assert j != s.guards[g].no ==> MaySurvive(s, j, Lookup(s.disk.live, j));
      }
    }
  }

  /** A put that was not synced may be lost. */
  lemma UnsyncedPutMayVanish(s: State, t: nat)
    requires Enabled(s, Commit(t, true)) && !s.cfg.durable && LagHolds(s.disk)
    ensures Survives(DoCommit(s, t, true), s.disk.live)
  {
    var s' := DoCommit(s, t, true);
    forall j: nat
      ensures MaySurvive(s', j, Lookup(s.disk.live, j))
    {
      assert Lookup(s.disk.live, j) in Candidates(s.disk, j);
      assert Lookup(s.disk.live, j) in Candidates(s'.disk, j);
    }
  }

  // ---- with synced acks ----

  /** Nothing on disk is behind the store, and every seq to come is unused. */
  ghost predicate AllSynced(s: State) {
    s.cfg.ackDurable && s.cfg.durable && s.disk.lag == map[] && FreshInv(s)
  }

  lemma SyncedStep(s: State, a: Action)
    requires s.cfg.ackDurable && s.cfg.durable && s.disk.lag == map[] && Enabled(s, a)
    ensures Apply(s, a).disk.lag == map[] && Apply(s, a).cfg == s.cfg
  {
    hide Admits, Wakes, Wake, Rouse, LeastFrom, Jump, Mark;
  }

  lemma {:induction false} SyncedRun(s: State, acts: seq<Action>)
    requires Inv(s) && AllSynced(s) && CanRun(s, acts, true)
    ensures AllSynced(Run(s, acts, true))
    decreases acts
  {
    hide Inv, FreshInv;
    if acts != [] {
      SyncedStep(s, acts[0]);
      FreshStep(s, acts[0]);
      StepKeeps(s, acts[0]);
      SyncedRun(Apply(s, acts[0]), acts[1..]);
    }
  }

  lemma SyncedOpen(cfg: Config, live: map<nat, Item>, h: History)
    requires cfg.ackDurable && cfg.durable
    ensures AllSynced(Open(cfg, Disk(live, map[]), h))
  {
    CrashIsFresh(cfg, live, h);
    hide FreshInv;
  }

  /** Every reopen of the history uses the same setting for synced acks as `cfg`. */
  predicate Uses(events: seq<Event>, cfg: Config) {
    forall e :: e in events && !e.Step? ==> e.cfg.ackDurable == cfg.ackDurable
  }

  lemma SyncedEvent(g: GState, e: Event)
    requires WorldInv(g) && AllSynced(Abs(g)) && Possible(g, e) && (!e.Step? ==> e.cfg.ackDurable)
    ensures AllSynced(Abs(Next(g, e)))
  {
    AbsKeepsQueue(g);
    hide GInv, Inv, DurInv, Abs, Open, Survives, AllSynced;
    match e
    case Step(a) =>
      GStep(g, a, true);
      SyncedRun(Abs(g), Sim(g, a));
      hide GApply, Sim;
    case Crash(survivors, cfg) =>
      SyncedOpen(cfg, survivors, Interrupted(g.base));
      OpenCfg(cfg, Disk(survivors, map[]), Interrupted(g.base));
      IdleIsItself(Open(cfg, Disk(survivors, map[]), Interrupted(g.base)));
    case Stop(cfg) =>
      assert g.base.disk.lag == map[] by {
        AllSyncedLag(Abs(g));
      }
      assert g.base.disk == Disk(g.base.disk.live, map[]);
      SyncedOpen(cfg, g.base.disk.live, g.base.h);
      OpenCfg(cfg, g.base.disk, g.base.h);
      IdleIsItself(Open(cfg, g.base.disk, g.base.h));
  }

  lemma AllSyncedLag(s: State)
    requires AllSynced(s)
    ensures s.disk.lag == map[]
  {
    hide FreshInv;
  }

  lemma {:induction false} SyncedHistory(g: GState, events: seq<Event>, cfg: Config)
    requires WorldInv(g) && AllSynced(Abs(g)) && Happens(g, events) && Uses(events, cfg) && cfg.ackDurable
    ensures AllSynced(Abs(After(g, events))) && WorldInv(After(g, events))
    decreases events
  {
    hide WorldInv, AllSynced, Abs, Possible, Next;
    if events != [] {
      assert events[0] in events;
      PossibleStep(g, events[0]);
      EventKeeps(g, events[0]);
      SyncedEvent(g, events[0]);
      SyncedHistory(Next(g, events[0]), events[1..], cfg);
    }
  }

  // ---- exactly when a reopen can overwrite ----

  /** In no history from an empty store, whatever else its reopens change, is a put about to land on a key in use. */
  ghost predicate NeverOverUsed(cfg: Config) {
    forall events :: Happens(Start(cfg), events) && Uses(events, cfg) ==> NextPutFresh(Abs(After(Start(cfg), events)))
  }

  /** Two runs of single puts with a reopen between them, as a history. */
  lemma TwoSessions(cfg: Config, s0: State, first: seq<Action>, second: seq<Action>) returns (events: seq<Event>, n: nat)
    requires Built(cfg) && s0.cfg == cfg && CanRun(s0, first, true)
    requires var s := Run(s0, first, true); CanRun(Open(cfg, s.disk, s.h), second, true)
    ensures var s := Run(s0, first, true);
            Becomes(Idle(s0), events, Idle(Run(Open(cfg, s.disk, s.h), second, true), n))
    ensures Uses(events, cfg)
  {
    hide Open, CanRun, Run, GReaches;
    var s := Run(s0, first, true);
    var s1 := Open(cfg, s.disk, s.h);
    OpenCfg(cfg, s.disk, s.h);
    var lift1, m := Lifts(s0, 0, first);
    var lift2;
    lift2, n := Lifts(s1, 0, second);
    LiftHappens(Idle(s0), lift1, Idle(s, m));
    LiftHappens(Idle(s1), lift2, Idle(Run(s1, second, true), n));
    ReopenHappens(Idle(s, m), cfg);
    hide Happens, After, Becomes, Idle;
    assert Idle(s, m).base == s by {
      IdleBase(s, m);
    }
    HistoriesJoin(Idle(s0), Steps(lift1), Idle(s, m), [Stop(cfg)], Idle(s1));
    HistoriesJoin(Idle(s0), Steps(lift1) + [Stop(cfg)], Idle(s1), Steps(lift2), Idle(Run(s1, second, true), n));
    events := Steps(lift1) + [Stop(cfg)] + Steps(lift2);
  }

  lemma IdleBase(s: State, n: nat)
    ensures Idle(s, n).base == s
  {
  }

  lemma LiftHappens(g: GState, acts: seq<GAction>, g': GState)
    requires GReaches(g, acts, g')
    ensures Becomes(g, Steps(acts), g')
  {
    hide Happens, After;
    StepsHappen(g, acts);
  }

  /** Push, ack without syncing, reopen without a power loss, push again. */
  lemma UnsyncedOverwrites(cfg: Config) returns (events: seq<Event>)
    requires Built(cfg) && !cfg.ackDurable
    ensures Happens(Start(cfg), events) && Uses(events, cfg) && !NextPutFresh(Abs(After(Start(cfg), events)))
  {
    var first, s := ReopenedOverwrites(cfg);
    var s0, s1 := Open(cfg, Disk(map[], map[]), NoHistory()), Open(cfg, s.disk, s.h);
    OpenKeeps(cfg, s.disk, s.h);
    OpenCfg(cfg, s.disk, s.h);
    OpenCfg(cfg, Disk(map[], map[]), NoHistory());
    OpenRests(cfg, s.disk, s.h);
    hide Inv, Open, NextPutFresh, Unused, NeverOverwrites, AtRest, Abs, CanRun, Run, Happens, After, Idle;
    var second := PutOver(s1, 0);
    var n;
    events, n := TwoSessions(cfg, s0, first, second);
    RunCfg(s1, second);
    IdleIsItself(Run(s1, second, true), n);
  }

  lemma OpenRests(cfg: Config, d: Disk, h: History)
    ensures AtRest(Open(cfg, d, h))
  {
  }

  lemma ReopenHappens(g: GState, cfg: Config)
    requires Built(cfg)
    ensures Becomes(g, [Stop(cfg)], Idle(Open(cfg, g.base.disk, g.base.h)))
  {
    var g' := Idle(Open(cfg, g.base.disk, g.base.h));
    assert Happens(g', []) && After(g', []) == g';
    assert [Stop(cfg)][0] == Stop(cfg) && [Stop(cfg)][1..] == [];
  }

  lemma {:induction false} RunCfg(s: State, acts: seq<Action>)
    requires CanRun(s, acts, true)
    ensures Run(s, acts, true).cfg == s.cfg
    decreases acts
  {
    hide Enabled, OneConsumer, Apply;
    if acts != [] {
      CfgStays(s, acts[0]);
      RunCfg(Apply(s, acts[0]), acts[1..]);
    }
  }

  /**
   No push ever writes over anything, on disk or in memory, in any history of sessions, power
   losses and reopens from an empty store, exactly when acks are synced.
   */
  lemma OverwritesExactly(cfg: Config)
    requires Built(cfg)
    ensures NeverOverUsed(cfg) <==> cfg.ackDurable
  {
    hide Happens, After, NextPutFresh, Uses, GInv, Inv, DurInv, Abs, FreshInv;
    if cfg.ackDurable {
      forall events | Happens(Start(cfg), events) && Uses(events, cfg)
        ensures NextPutFresh(Abs(After(Start(cfg), events)))
      {
        Beginning(cfg);
        SyncedOpen(cfg, map[], NoHistory());
        IdleIsItself(Open(cfg, Disk(map[], map[]), NoHistory()));
        SyncedHistory(Start(cfg), events, cfg);
        PutIsFresh(Abs(After(Start(cfg), events)));
      }
    } else {
      var events := UnsyncedOverwrites(cfg);
    }
  }
}
