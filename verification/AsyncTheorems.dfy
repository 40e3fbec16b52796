/** What the async facade promises over whole runs, and the store failures that break it. */
module AsyncTheorems {
  import opened Base
  import opened Protocol
  import opened Invariants
  import opened Theorems
  import opened Notify
  import opened Wakeups
  import opened Alone
  import opened AsyncFacade

  // ---- the facade drives the queue ----

  lemma DriveStep(s: Async, a: AAction, faulty: bool)
    requires AEnabled(s, a, faulty)
    ensures Reaches(s.base, Drives(s, a), AApply(s, a, faulty).base, true)
  {
    BaseMoves(s, a, faulty);
    NoActs(s.base, true);
    var acts := Drives(s, a);
    hide AApply, AEnabled;
    if acts != [] {
      hide AApply, AEnabled, Drives, Enabled, OneConsumer, Apply;
      Extend(s.base, [], s.base, acts[0], true);
      assert [] + [acts[0]] == acts;
    }
  }

  // ---- runs ----

  predicate ACanRun(s: Async, acts: seq<AAction>, faulty: bool)
    decreases acts
  {
    acts == [] || (AEnabled(s, acts[0], faulty) && ACanRun(AApply(s, acts[0], faulty), acts[1..], faulty))
  }

  function ARun(s: Async, acts: seq<AAction>, faulty: bool): Async
    requires ACanRun(s, acts, faulty)
    decreases acts
  {
    if acts == [] then s else ARun(AApply(s, acts[0], faulty), acts[1..], faulty)
  }

  function AOpen(cfg: Config, disk: Disk, h: History): Async {
    Async(Open(cfg, disk, h), map[], Quiet, Quiet, Away, {}, {}, {}, {}, {})
  }

  /** Every run of the facade, with or without store failures, is a run of the queue. */
  lemma {:induction false} FacadeRunsQueue(s: Async, acts: seq<AAction>, faulty: bool) returns (inner: seq<Action>)
    requires ACanRun(s, acts, faulty)
    ensures Reaches(s.base, inner, ARun(s, acts, faulty).base, true)
    decreases acts
  {
    NoActs(s.base, true);
    if acts == [] {
      inner := [];
    } else {
      hide AEnabled, AApply, Reaches;
      DriveStep(s, acts[0], faulty);
      var s' := AApply(s, acts[0], faulty);
      var rest := FacadeRunsQueue(s', acts[1..], faulty);
      Join(s.base, Drives(s, acts[0]), s'.base, rest, ARun(s, acts, faulty).base, true);
      inner := Drives(s, acts[0]) + rest;
    }
  }

  // ---- no wake is lost ----

  lemma AStep(s: Async, a: AAction)
    requires AInv(s) && AEnabled(s, a, false)
    ensures AInv(AApply(s, a, false))
  {
    NoUnderflow(s.base);
    DriveStep(s, a, false);
    ReachKeeps(s.base, Drives(s, a), AApply(s, a, false).base);
    DriveCfg(s, a);
    hide Inv, Linked, Sound, RoomKept, ShutKept, ItemsKept, ByCountOnly, AEnabled, AApply;
    RoomStep(s, a);
    ItemsStep(s, a);
    SoundStep(s, a);
    LinkStep(s, a);
  }

  lemma DriveCfg(s: Async, a: AAction)
    requires AEnabled(s, a, false)
    ensures AApply(s, a, false).base.cfg == s.base.cfg
  {
    BaseMoves(s, a, false);
    hide AEnabled, AApply;
    if Drives(s, a) != [] {
      CountersMove(s.base, Drives(s, a)[0]);
    }
  }

  lemma AOpenKeeps(cfg: Config, disk: Disk, h: History)
    requires ByCountOnly(cfg)
    ensures AInv(AOpen(cfg, disk, h))
  {
    OpenKeeps(cfg, disk, h);
    hide Inv;
  }

  lemma {:induction false} AsyncRun(s: Async, acts: seq<AAction>)
    requires AInv(s) && ACanRun(s, acts, false)
    ensures AInv(ARun(s, acts, false))
    decreases acts
  {
    hide AInv;
    if acts != [] {
      AStep(s, acts[0]);
      AsyncRun(AApply(s, acts[0], false), acts[1..]);
    }
  }

  /** The await of waiter `w` would not complete if polled now. */
  predicate Unresumed(n: Notify, w: nat) {
    w !in n.regs || n.regs[w] == Queued
  }

  /** A suspended push that could go on (a free slot, or a closed queue) with no wake under way. */
  predicate PushStuck(s: Async) {
    && (exists t :: t in s.futures && s.futures[t].at.Waiting? && Unresumed(s.room, t))
    && if s.base.q.closed then !CloseOwesRoom(s)
       else s.base.q.len < s.base.cfg.capacity && RoomCredit(s) == 0
  }

  /** A suspended reserve that could go on (an item to hand out, or a drained queue) with no wake under way. */
  predicate ReserveStuck(s: Async) {
    && s.reserver.Parked? && Unresumed(s.items, 0) && !ItemsOwed(s)
    && (Reservable(s.base) != {} || (s.base.q.closed && s.base.q.len == 0))
  }

  lemma NobodyStuck(s: Async)
    requires AInv(s)
    ensures !PushStuck(s) && !ReserveStuck(s)
  {
    hide Inv, Sound, ThreadsLinked, GuardsLinked;
    if t :| t in s.futures && s.futures[t].at.Waiting? && Unresumed(s.room, t) {
      assert Waits(s.room, t);
    }
  }

  /** No run of any session leaves a future stuck. */
  ghost predicate NeverStuck(cfg: Config, faulty: bool) {
    forall disk, h, acts :: ACanRun(AOpen(cfg, disk, h), acts, faulty) ==>
      !PushStuck(ARun(AOpen(cfg, disk, h), acts, faulty)) && !ReserveStuck(ARun(AOpen(cfg, disk, h), acts, faulty))
  }

  // ---- a failed ack wakes nobody ----

  ghost predicate AReaches(s: Async, acts: seq<AAction>, s': Async) {
    ACanRun(s, acts, true) && ARun(s, acts, true) == s'
  }

  lemma {:induction false} AppendOne(s: Async, acts: seq<AAction>, a: AAction)
    requires ACanRun(s, acts, true) && AEnabled(ARun(s, acts, true), a, true)
    ensures AReaches(s, acts + [a], AApply(ARun(s, acts, true), a, true))
    decreases acts
  {
    hide AEnabled, AApply;
    if acts == [] {
      assert acts + [a] == [a] && [a][0] == a && [a][1..] == [];
      var s' := AApply(s, a, true);
      assert ACanRun(s', [], true) && ARun(s', [], true) == s';
      assert ACanRun(s, [a], true) && ARun(s, [a], true) == s';
    } else {
      AppendOne(AApply(s, acts[0], true), acts[1..], a);
      assert (acts + [a])[1..] == acts[1..] + [a] && (acts + [a])[0] == acts[0];
    }
  }

  lemma Go(s0: Async, acts0: seq<AAction>, s: Async, a: AAction) returns (acts: seq<AAction>, s': Async)
    requires AReaches(s0, acts0, s) && AEnabled(s, a, true)
    ensures AReaches(s0, acts, s') && s' == AApply(s, a, true)
  {
    AppendOne(s0, acts0, a);
    acts, s' := acts0 + [a], AApply(s, a, true);
  }

  /** The disk the failing run starts from: one entry. */
  function OneEntry(): Disk {
    Disk(map[0 := Item(0, [])], map[])
  }

  lemma OneEntryOpen(cfg: Config)
    ensures AOpen(cfg, OneEntry(), NoHistory()).base.q == Inner(1, 0, {}, 1, 0, {}, false)
  {
    var m := Values(OneEntry().live);
    assert m == map[0 := []] && m.Keys == {0};
    assert SumTo(m, 1) == SumTo(m, 0) + 0;
  }

  lemma Nothing(s: Async)
    ensures AReaches(s, [], s)
  {
  }

  /** The state once a reserve has registered and called the queue's own. */
  function Looking(s: Async): Async {
    s.(reserver := Calling, items := Enable(s.items, 0),
    base := s.base.(calls := s.base.calls[0 := Seeking(s.base.q.head, Reservable(s.base), 0)]))
  }

  lemma Look(s0: Async, acts0: seq<AAction>, s: Async) returns (acts: seq<AAction>)
    requires AReaches(s0, acts0, s) && s.reserver.Away? && ConsumerIdle(s.base)
    ensures AReaches(s0, acts, Looking(s))
  {
    hide AReaches, Enable;
    var s';
    acts, s' := Go(s0, acts0, s, StartReserve);
    acts, s' := Go(s0, acts, s', RegisterReserve);
    acts, s' := Go(s0, acts, s', CallReserve);
  }

  lemma SeekTo(s0: Async, acts0: seq<AAction>, s: Async, k: nat) returns (acts: seq<AAction>, s': Async)
    requires AReaches(s0, acts0, s) && s.reserver.Calling? && 0 in s.base.calls && s.base.calls[0].Seeking?
    requires LeastFrom(s.base.disk.live.Keys, s.base.calls[0].cursor) == Some(k)
    ensures AReaches(s0, acts, s')
    ensures var Seeking(_, avail, seeks) := s.base.calls[0];
            s' == s.(base := s.base.(calls := s.base.calls[0 := Sought(k, s.base.disk.live[k], avail, seeks + 1)]))
  {
    hide AReaches, LeastFrom;
    acts, s' := Go(s0, acts0, s, Within(Seek(0, true)));
  }

  /** One entry, at rest in the queue but for guard 0 when `held`. */
  predicate OneItem(s: Async, held: bool) {
    && s.base.disk == OneEntry() && s.base.threads == map[] && s.futures == map[]
    && s.base.q == Inner(1, 0, {}, 1, 0, if held then {0} else {}, false)
    && s.base.guards == (if held then map[0 := Guard(0, Item(0, []), Held)] else map[])
    && s.ackRoom == s.ackItems == s.nacks == s.closeRoom == s.closeItems == {}
  }

  /** The first reserve takes the only item. */
  lemma TakeIt(s0: Async, acts0: seq<AAction>, s: Async) returns (acts: seq<AAction>, s': Async)
    requires AReaches(s0, acts0, s) && OneItem(s, false) && s.reserver.Calling?
    requires s.base.calls == map[0 := Seeking(0, {0}, 0)] && s.items == Enable(Quiet, 0)
    ensures AReaches(s0, acts, s') && OneItem(s', true) && s'.reserver.Away? && s'.items == Quiet && s'.base.calls == map[]
  {
    hide AReaches;
    LeastIs(s.base.disk.live.Keys, 0, 0);
    acts, s' := SeekTo(s0, acts0, s, 0);
    acts, s' := Go(s0, acts, s', Within(Take(0, 0)));
    acts, s' := Go(s0, acts, s', LeaveReserve);
    EnableDrop(0);
  }

  lemma EnableDrop(w: nat)
    ensures Drop(Enable(Quiet, w), w) == Quiet
  {
    var n := Enable(Quiet, w);
    assert n.queue == [w] && [w][1..] == [] && Without([w], w) == Without([], w) == [];
    assert n.regs == map[w := Queued] && n.regs - {w} == map[];
  }

  /** The second passes over it ... */
  lemma SkipIt(s0: Async, acts0: seq<AAction>, s: Async) returns (acts: seq<AAction>, s': Async)
    requires AReaches(s0, acts0, s) && OneItem(s, true) && s.reserver.Calling?
    requires s.base.calls == map[0 := Seeking(0, {}, 0)]
    ensures AReaches(s0, acts, s') && OneItem(s', true) && s' == s.(base := s'.base)
    ensures s'.base.calls == map[0 := Seeking(1, {}, 1)]
  {
    hide AReaches;
    LeastIs(s.base.disk.live.Keys, 0, 0);
    acts, s' := SeekTo(s0, acts0, s, 0);
    acts, s' := Go(s0, acts, s', Within(Take(0, 1)));
  }

  /** ... and finds nothing, so it is suspended. */
  lemma ParkIt(s0: Async, acts0: seq<AAction>, s: Async) returns (acts: seq<AAction>, s': Async)
    requires AReaches(s0, acts0, s) && OneItem(s, true) && s.reserver.Calling?
    requires s.base.calls == map[0 := Seeking(0, {}, 0)] && s.items == Enable(Quiet, 0)
    ensures AReaches(s0, acts, s') && OneItem(s', true) && s'.reserver.Parked? && s'.base.calls == map[] && Waits(s'.items, 0)
  {
    hide AReaches;
    acts, s' := SkipIt(s0, acts0, s);
    LeastNone(s'.base.disk.live.Keys, 1);
    acts, s' := Go(s0, acts, s', Within(Seek(0, true)));
    acts, s' := Go(s0, acts, s', AskDrained);
  }

  /** Then the delete of the first fails ... */
  lemma FailDelete(s0: Async, acts0: seq<AAction>, s: Async) returns (acts: seq<AAction>, s': Async)
    requires AReaches(s0, acts0, s) && OneItem(s, true) && s.reserver.Parked? && s.base.calls == map[]
    ensures AReaches(s0, acts, s') && s'.base.guards == map[0 := Guard(0, Item(0, []), Dropping)]
    ensures s'.base.q == s.base.q && s'.base.disk == s.base.disk && s'.base.threads == map[]
    ensures s' == s.(base := s'.base)
  {
    hide AReaches;
    acts, s' := Go(s0, acts0, s, Within(BeginAck(0)));
    acts, s' := Go(s0, acts, s', Within(Delete(0, false)));
  }

  /** ... and its guard releases: the item is back, and nobody is told. */
  lemma FailAck(s0: Async, acts0: seq<AAction>, s: Async) returns (acts: seq<AAction>, s': Async)
    requires AReaches(s0, acts0, s) && OneItem(s, true) && s.reserver.Parked? && s.base.calls == map[] && Waits(s.items, 0)
    ensures AReaches(s0, acts, s') && ReserveStuck(s')
  {
    hide AReaches;
    acts, s' := FailDelete(s0, acts0, s);
    acts, s' := Go(s0, acts, s', Within(Release(0)));
    assert 0 in Reservable(s'.base);
  }

  lemma FailedAckStrands(cfg: Config) returns (acts: seq<AAction>)
    ensures var s := AOpen(cfg, OneEntry(), NoHistory()); ACanRun(s, acts, true) && ReserveStuck(ARun(s, acts, true))
  {
    var s0 := AOpen(cfg, OneEntry(), NoHistory());
    OneEntryOpen(cfg);
    Nothing(s0);
    hide AReaches, ACanRun, ARun, ReserveStuck, Enable;
    acts := Look(s0, [], s0);
    var s, s' := Looking(s0), s0;
    assert Reservable(s0.base) == {0};
    acts, s := TakeIt(s0, acts, s);
    acts := Look(s0, acts, s);
    assert Reservable(s.base) == {};
    acts, s' := ParkIt(s0, acts, Looking(s));
    acts, s' := FailAck(s0, acts, s');
    assert AReaches(s0, acts, s') ==> ACanRun(s0, acts, true) && ARun(s0, acts, true) == s' by {
      AReachesMeans(s0, acts, s');
    }
  }

  lemma AReachesMeans(s0: Async, acts: seq<AAction>, s: Async)
    ensures AReaches(s0, acts, s) ==> ACanRun(s0, acts, true) && ARun(s0, acts, true) == s
  {
  }

  /**
   Under the item-count bound no push or reserve is ever left suspended while it could go on
   with no wake under way, exactly when the store does not fail: a failed ack puts its item
   back without notifying `items`.
   */
  lemma StuckExactly(cfg: Config, faulty: bool)
    requires ByCountOnly(cfg)
    ensures NeverStuck(cfg, faulty) <==> !faulty
  {
    hide AInv, PushStuck, ReserveStuck;
    if faulty {
      var acts := FailedAckStrands(cfg);
    } else {
      forall disk, h, acts | ACanRun(AOpen(cfg, disk, h), acts, false)
        ensures !PushStuck(ARun(AOpen(cfg, disk, h), acts, false)) && !ReserveStuck(ARun(AOpen(cfg, disk, h), acts, false))
      {
        AOpenKeeps(cfg, disk, h);
        AsyncRun(AOpen(cfg, disk, h), acts);
        NobodyStuck(ARun(AOpen(cfg, disk, h), acts, false));
      }
    }
  }
}
