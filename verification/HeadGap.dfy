/** When `head` is the oldest stored entry, and when it is not. */
module HeadGap {
  import opened Base
  import opened Protocol
  import opened Invariants
  import opened Theorems
  import opened Alone
  import opened Overwrite
  import opened Group
  import opened GroupRefines
  import opened GroupLifts
  import opened Sessions
  import opened Reopens

  /** `head` sits on a seq whose push failed, or that recovery never found. */
  predicate OnGap(s: State) {
    && s.q.head < s.q.tail
    && (s.q.head in s.h.book ==> s.h.book[s.q.head].stage.Void?)
  }

  lemma HeadStage(s: State)
    requires Inv(s) && Quiescent(s) && s.q.head in s.h.book
    ensures s.h.book[s.q.head].stage.Live? || s.h.book[s.q.head].stage.Void?
  {
    HeadIsFirstUnacked(s);
    hide HeadMatch, Exclusive, Serial, Scans, LiveMatch;
  }

  /** With nothing in flight, `head` is the oldest stored entry exactly when it is not on a gap. */
  lemma HeadIsOldestExactly(s: State)
    requires Inv(s) && Quiescent(s) && s.disk.live != map[]
    ensures s.disk.live.Keys != {} && (s.q.head == Min(s.disk.live.Keys) <==> !OnGap(s))
  {
    assert s.disk.live.Keys != {};
    hide Inv;
    HeadPassesNothing(s);
    LiveKnown(s, s.q.head) by {
      InvBook(s);
    }
    if s.q.head in s.h.book {
      HeadStage(s);
    }
  }

  lemma InvBook(s: State)
    requires Inv(s)
    ensures BookInv(s)
  {
    hide BookInv, GuardInv, AccountInv, HeadInv, ScanInv;
  }

  lemma GapStep(s: State, a: Action)
    requires Inv(s) && OnGap(s) && Enabled(s, a)
    ensures OnGap(Apply(s, a)) && Apply(s, a).q.head == s.q.head
  {
    hide Inv;
    LedgerStep(s, a);
    OneWay(s, a, s.q.head);
    HeadMoves(s, a);
    if a.SettleAck? {
      GuardKnown(s, a.g);
    }
    hide Apply;
  }

  lemma HeadMoves(s: State, a: Action)
    requires Enabled(s, a)
    ensures Apply(s, a).q.head != s.q.head ==> a.SettleAck? && s.guards[a.g].no == s.q.head
  {
  }

  /** Once on a gap `head` never moves again in that session. */
  lemma {:induction false} GapForGood(s: State, acts: seq<Action>)
    requires Inv(s) && OnGap(s) && CanRun(s, acts, true)
    ensures OnGap(Run(s, acts, true)) && Run(s, acts, true).q.head == s.q.head
    decreases acts
  {
    hide Inv, OnGap;
    if acts != [] {
      GapStep(s, acts[0]);
      StepKeeps(s, acts[0]);
      GapForGood(Apply(s, acts[0]), acts[1..]);
    }
  }

  // ---- when `head` is the oldest entry in every state of a session ----

  /** With nothing in flight, `head` is the oldest stored entry. */
  predicate HeadOldest(s: State) {
    Quiescent(s) && s.disk.live.Keys != {} ==> s.q.head == Min(s.disk.live.Keys)
  }

  /** The stored seqs have no gap. */
  predicate Contiguous(keys: set<nat>) {
    forall i, j, k :: i in keys && j in keys && i <= k <= j ==> k in keys
  }

  /** Every seq of the session is recovered or claimed, and none has failed. */
  ghost predicate NoGaps(s: State) {
    forall k: nat :: s.h.head0 <= k < s.q.tail ==> k in s.h.book && !s.h.book[k].stage.Void? && !s.h.book[k].stage.Broken?
  }

  lemma NoGapStep(s: State, a: Action)
    requires Inv(s) && NoGaps(s) && Enabled(s, a) && (a.Commit? ==> a.ok)
    ensures NoGaps(Apply(s, a))
  {
    hide Inv;
    LedgerStep(s, a);
    NewSeqBooked(s, a);
    HeadKnown(s);
    match a
    case GiveBack(t) => OwnerKnown(s, t); hide Apply;
    case Commit(t, ok) => OwnerKnown(s, t); hide Apply;
    case Delete(g, ok) => GuardKnown(s, g); hide Apply;
    case SettleAck(g) => GuardKnown(s, g); hide Apply;
    case _ => hide Apply;
  }

  lemma HeadKnown(s: State)
    requires Inv(s)
    ensures s.h.head0 <= s.q.head <= s.q.tail
  {
    hide BookInv, GuardInv, AccountInv, ScanInv;
  }

  lemma NewSeqBooked(s: State, a: Action)
    requires Enabled(s, a)
    ensures var s' := Apply(s, a);
            && s'.h.head0 == s.h.head0
            && (s'.q.tail == s.q.tail || (s'.q.tail == s.q.tail + 1 && s.q.tail in s'.h.book))
  {
    hide Admits, Wakes, Wake, Rouse, LeastFrom, Jump, Mark, Put, Erase;
  }

  lemma {:induction false} NoGapRun(s: State, acts: seq<Action>)
    requires Inv(s) && NoGaps(s) && CanRun(s, acts, true) && NoneFails(acts)
    ensures NoGaps(Run(s, acts, true)) && Inv(Run(s, acts, true))
    decreases acts
  {
    hide Inv, NoGaps;
    if acts != [] {
      assert acts[0] in acts && forall a :: a in acts[1..] ==> a in acts;
      NoGapStep(s, acts[0]);
      StepKeeps(s, acts[0]);
      NoGapRun(Apply(s, acts[0]), acts[1..]);
    }
  }

  lemma NoGapsIsOldest(s: State)
    requires Inv(s) && NoGaps(s)
    ensures HeadOldest(s)
  {
    HeadKnown(s);
    hide Inv;
    if Quiescent(s) && s.disk.live.Keys != {} {
      HeadIsOldestExactly(s);
    }
  }

  lemma ContiguousOpen(cfg: Config, disk: Disk, h: History)
    requires Contiguous(disk.live.Keys)
    ensures NoGaps(Open(cfg, disk, h))
  {
    var s := Open(cfg, disk, h);
    if disk.live != map[] {
      assert disk.live.Keys != {};
      var low, top := Min(disk.live.Keys), Max(disk.live.Keys);
      assert Values(disk.live).Keys == disk.live.Keys;
      assert low in disk.live && top in disk.live;
    }
  }

  /** A run of group commit in which no push fails amounts to commits that all succeed. */
  lemma {:induction false} SimClean(g: GState, acts: seq<GAction>)
    requires GCanRun(g, acts, true) && NoPushFails(acts)
    ensures NoneFails(SimRun(g, acts, true))
    decreases acts
  {
    if acts != [] {
      hide GEnabled, OneConsumer, GApply;
      assert acts[0] in acts && forall a :: a in acts[1..] ==> a in acts;
      SimClean(GApply(g, acts[0]), acts[1..]);
      StepClean(g, acts[0]);
    }
  }

  lemma StepClean(g: GState, a: GAction)
    requires GEnabled(g, a) && !FailedPush(a)
    ensures NoneFails(Sim(g, a))
  {
    if a.Flush? {
      CommitsClean(g.gpc[a.t].batch);
    }
  }

  lemma {:induction false} CommitsClean(es: seq<Entry>)
    ensures NoneFails(Commits(es))
  {
    if es != [] {
      CommitsClean(es[1..]);
    }
  }

  // ---- the two ways it fails ----

  predicate IsGap(s: State, k: nat) {
    s.h.head0 <= k < s.q.tail && k !in s.h.book && exists j :: j in s.disk.live && k < j
  }

  /** Deliver everything below a gap: `head` stops at it. */
  lemma {:induction false} DeliverToGap(s: State, k: nat) returns (acts: seq<Action>, s': State)
    requires Inv(s) && AtRest(s) && IsGap(s, k)
    ensures Reaches(s, acts, s', true) && NoneFails(acts) && Inv(s') && !HeadOldest(s')
    decreases |s.disk.live|
  {
    hide Inv, Reaches, AtRest;
    var j :| j in s.disk.live && k < j;
    assert s.disk.live.Keys != {};
    var low := Min(s.disk.live.Keys);
    if k < low {
      NoActs(s, true);
      acts, s' := [], s;
      HeadAtMostGap(s, k);
      RestIsQuiet(s);
    } else {
      var s1, rest;
      acts, s1 := DeliverAlone(s);
      MapRemoveSize(s.disk.live, low);
      assert j != low;
      assert j in s1.disk.live;
      GapStays(s, acts, k) by {
        ReachesRun(s, acts, s1);
      }
      ReachesRun(s, acts, s1);
      rest, s' := DeliverToGap(s1, k);
      Join(s, acts, s1, rest, s', true);
      acts := acts + rest;
    }
  }

  lemma ReachesRun(s: State, acts: seq<Action>, s': State)
    requires Reaches(s, acts, s', true)
    ensures CanRun(s, acts, true) && Run(s, acts, true) == s'
  {
  }

  lemma RestIsQuiet(s: State)
    requires AtRest(s)
    ensures Quiescent(s)
  {
  }

  lemma HeadAtMostGap(s: State, k: nat)
    requires Inv(s) && s.h.head0 <= k && k !in s.h.book
    ensures s.q.head <= k
  {
    HeadIsFirstUnacked(s);
    hide Inv;
    assert s.q.head > k ==> IsAcked(s.h.book, k);
  }

  lemma {:induction false} GapStays(s: State, acts: seq<Action>, k: nat)
    requires Inv(s) && k !in s.h.book && k < s.q.tail && CanRun(s, acts, true)
    ensures var s' := Run(s, acts, true); k !in s'.h.book && k < s'.q.tail && s'.h.head0 == s.h.head0
    decreases acts
  {
    hide Inv;
    if acts != [] {
      LedgerStep(s, acts[0]);
      OneWay(s, acts[0], k);
      NewSeqBooked(s, acts[0]);
      StepKeeps(s, acts[0]);
      hide Apply, Enabled, OneConsumer;
      GapStays(Apply(s, acts[0]), acts[1..], k);
    }
  }

  /** From rest: a push fails, the next one lands, and `head` is left below it. */
  lemma PushAboveFailed(s: State) returns (acts: seq<Action>, s': State)
    requires Inv(s) && AtRest(s) && s.cfg.capacity >= 1 && s.q.tail + 2 <= U64_MAX
    ensures Reaches(s, acts, s', true) && !HeadOldest(s')
  {
    hide Inv, Reaches;
    var s1, s2, more;
    acts, s1 := DrainAlone(s);
    RestIsEmpty(s1);
    HeadKnown(s1);
    more, s2 := BurnAlone(s1);
    Join(s, acts, s1, more, s2, true);
    acts, s' := PushOne(s, acts + more, s2);
    assert s'.disk.live.Keys == {s2.q.tail};
  }

  lemma PushOne(s0: State, acts0: seq<Action>, s: State) returns (acts: seq<Action>, s': State)
    requires Reaches(s0, acts0, s, true) && AtRest(s) && s.q.len == 0 && s.cfg.capacity >= 1 && s.q.tail < U64_MAX
    ensures Reaches(s0, acts, s', true) && s'.q.head == s.q.head && Quiescent(s')
    ensures s'.disk.live == s.disk.live[s.q.tail := Item(s.h.nextId, [])]
  {
    hide Reaches;
    acts := ClaimAlone(s0, acts0, s, 0, [], true);
    var s1 := Claim(s, 0, []);
    Extend(s0, acts, s1, Commit(0, true), true);
    acts, s' := acts + [Commit(0, true)], DoCommit(s1, 0, true);
  }

  lemma FreshRest(cfg: Config)
    ensures var s := Open(cfg, Disk(map[], map[]), NoHistory());
            AtRest(s) && s.q == Inner(0, 0, {}, 0, 0, {}, false) && s.disk == Disk(map[], map[]) && s.cfg == cfg
  {
    SumToEmpty(0);
  }

  /** A failed push, then one that lands: `head` is 0, and the oldest stored entry is 1. */
  lemma FailedPushLeavesGap(cfg: Config) returns (acts: seq<Action>, s: State)
    requires cfg.capacity >= 1
    ensures Reaches(Open(cfg, Disk(map[], map[]), NoHistory()), acts, s, true)
    ensures s.disk.live.Keys == {1} && s.q.head == 0
  {
    hide Reaches;
    var s0 := Open(cfg, Disk(map[], map[]), NoHistory());
    FreshRest(cfg);
    hide Open;
    var s1;
    acts, s1 := BurnAlone(s0);
    acts, s := PushOne(s0, acts, s1);
  }

  // ---- exactly when ----

  /** In every state of every run of a session on `disk`, with or without pushes that fail. */
  ghost predicate HeadAlwaysOldest(cfg: Config, disk: Disk, h: History, faulty: bool) {
    forall acts :: GCanRun(Idle(Open(cfg, disk, h)), acts, true) && (faulty || NoPushFails(acts)) ==>
      HeadOldest(Abs(GRun(Idle(Open(cfg, disk, h)), acts, true)))
  }

  lemma OldestWithoutFailures(cfg: Config, disk: Disk, h: History, acts: seq<GAction>)
    requires Built(cfg) && Contiguous(disk.live.Keys) && GCanRun(Idle(Open(cfg, disk, h)), acts, true) && NoPushFails(acts)
    ensures HeadOldest(Abs(GRun(Idle(Open(cfg, disk, h)), acts, true)))
  {
    var s := Open(cfg, disk, h);
    OpenKeeps(cfg, disk, h);
    OpenCfg(cfg, disk, h);
    IdleIsItself(s);
    ContiguousOpen(cfg, disk, h);
    hide Open, Inv, GInv, Abs, NoGaps, HeadOldest, CanRun, Run;
    Refines(Idle(s), acts);
    SimClean(Idle(s), acts);
    ReachesRun(s, SimRun(Idle(s), acts, true), Abs(GRun(Idle(s), acts, true)));
    NoGapRun(s, SimRun(Idle(s), acts, true));
    NoGapsIsOldest(Abs(GRun(Idle(s), acts, true)));
  }

  /** A run of single puts that leaves `head` behind is one with group commit too. */
  lemma BehindLifts(s: State, core: seq<Action>, s': State) returns (acts: seq<GAction>)
    requires Built(s.cfg) && Reaches(s, core, s', true) && !HeadOldest(s')
    ensures GCanRun(Idle(s), acts, true) && !HeadOldest(Abs(GRun(Idle(s), acts, true)))
    ensures NoneFails(core) ==> NoPushFails(acts)
  {
    hide HeadOldest, Abs;
    var n;
    ReachesRun(s, core, s');
    RunCfg(s, core);
    acts, n := Lifts(s, 0, core);
    IdleIsItself(s', n);
  }

  lemma GapOpen(cfg: Config, disk: Disk, h: History) returns (k: nat)
    requires !Contiguous(disk.live.Keys)
    ensures IsGap(Open(cfg, disk, h), k)
  {
    var i, j, n :| i in disk.live && j in disk.live && i <= n <= j && n !in disk.live;
    k := n;
    assert Values(disk.live).Keys == disk.live.Keys;
    TopOf(Values(disk.live));
  }

  /**
   In a session on any store, `head` is the oldest entry whenever nothing is in flight,
   exactly when no push fails and the recovered seqs have no gap.
   */
  lemma HeadOldestExactly(cfg: Config, disk: Disk, h: History, faulty: bool)
    requires Built(cfg) && Recovered(Values(disk.live)).tail + 2 <= U64_MAX
    ensures HeadAlwaysOldest(cfg, disk, h, faulty) <==> !faulty && Contiguous(disk.live.Keys)
  {
    var s := Open(cfg, disk, h);
    OpenKeeps(cfg, disk, h);
    OpenCfg(cfg, disk, h);
    OpenRests(cfg, disk, h);
    if !faulty && Contiguous(disk.live.Keys) {
      forall acts | GCanRun(Idle(s), acts, true) && NoPushFails(acts)
        ensures HeadOldest(Abs(GRun(Idle(s), acts, true)))
      {
        OldestWithoutFailures(cfg, disk, h, acts);
      }
    } else {
      var core, s';
      if !Contiguous(disk.live.Keys) {
        var k := GapOpen(cfg, disk, h);
        core, s' := DeliverToGap(s, k);
      } else {
        core, s' := PushAboveFailed(s);
      }
      hide Open, Inv, GInv, Abs, HeadOldest, CanRun, Run, Contiguous, NoneFails, NoPushFails, Idle;
      var acts := BehindLifts(s, core, s');
    }
  }
}
