/** A put never lands on a key that holds anything, in memory or on disk. */
module Overwrite {
  import opened Base
  import opened Protocol
  import opened Invariants
  import opened Theorems
  import opened Alone

  /** The store holds nothing under `k`, and neither does the disk. */
  predicate Unused(d: Disk, k: nat) {
    Candidates(d, k) == {None}
  }

  /** Every seq still to be claimed, or claimed and not committed, is unused. */
  ghost predicate FreshInv(s: State) {
    && (forall k: nat :: s.q.tail <= k < U64_MAX ==> Unused(s.disk, k))
    && (forall k: nat :: k in s.h.book && s.h.book[k].stage.InFlight? ==> Unused(s.disk, k))
  }

  lemma FreshDisk(s: State, a: Action)
    requires Inv(s) && Enabled(s, a)
    ensures forall k: nat :: Unused(s.disk, k) && !Unused(Apply(s, a).disk, k) ==>
              (a.Commit? && s.threads[a.t].no == k) || (a.Delete? && s.guards[a.g].no == k)
  {
    hide Inv;
    match a
    case Commit(t, ok) =>
    case Delete(g, ok) =>
    case _ =>
  }

  lemma FreshStep(s: State, a: Action)
    requires Inv(s) && FreshInv(s) && Enabled(s, a)
    ensures FreshInv(Apply(s, a))
  {
    hide Inv, Unused;
    LedgerStep(s, a);
    FreshDisk(s, a);
    match a
    case Arrive(t, v, wait) =>
    case Recheck(t) =>
    case Commit(t, ok) => hide Apply; OwnerKnown(s, t);
    case GiveBack(t) => hide Apply; OwnerKnown(s, t);
    case Delete(g, ok) => hide Apply; GuardKnown(s, g);
    case SettleAck(g) => hide Apply; GuardKnown(s, g);
    case _ => hide Apply;
  }

  lemma {:induction false} FreshRun(s: State, acts: seq<Action>)
    requires Inv(s) && FreshInv(s) && CanRun(s, acts, true)
    ensures FreshInv(Run(s, acts, true)) && Inv(Run(s, acts, true))
    decreases acts
  {
    hide Inv, FreshInv;
    if acts != [] {
      FreshStep(s, acts[0]);
      StepKeeps(s, acts[0]);
      FreshRun(Apply(s, acts[0]), acts[1..]);
    }
  }

  /** A commit about to happen would write to an unused key. */
  predicate NextPutFresh(s: State) {
    forall t :: t in s.threads && s.threads[t].Claimed? ==> Unused(s.disk, s.threads[t].no)
  }

  lemma PutIsFresh(s: State)
    requires Inv(s) && FreshInv(s)
    ensures NextPutFresh(s)
  {
    hide Inv, Unused;
    forall t | t in s.threads && s.threads[t].Claimed?
      ensures Unused(s.disk, s.threads[t].no)
    {
      OwnerKnown(s, t);
    }
  }

  /** No run from `s` ever puts over anything. */
  ghost predicate NeverOverwrites(s: State) {
    forall acts :: CanRun(s, acts, true) ==> NextPutFresh(Run(s, acts, true))
  }

  // ---- reaching a seq that is in use ----

  predicate AtRest(s: State) {
    s.threads == map[] && s.guards == map[] && s.calls == map[] && !s.q.closed
  }

  /** `s'` is `s` at rest with room, the store untouched from `tail` on. */
  ghost predicate Settles(s: State, s': State) {
    && AtRest(s') && Inv(s') && s'.cfg == s.cfg
    && s'.q.tail == s.q.tail
    && forall k: nat :: s.q.tail <= k ==> Candidates(s'.disk, k) == Candidates(s.disk, k)
  }

  lemma FirstOf(s: State)
    requires Inv(s) && s.guards == map[] && s.disk.live != map[]
    ensures s.disk.live.Keys != {} && LeastFrom(Reservable(s), 0) == Some(Min(s.disk.live.Keys))
  {
    NothingReserved(s);
    hide Inv;
    assert s.disk.live.Keys != {};
    assert Reservable(s) == s.disk.live.Keys;
  }

  lemma DeliverAlone(s: State) returns (acts: seq<Action>, s': State)
    requires Inv(s) && AtRest(s) && s.disk.live != map[]
    ensures Reaches(s, acts, s', true) && Settles(s, s') && NoneFails(acts)
    ensures s.disk.live.Keys != {} && s'.disk.live == s.disk.live - {Min(s.disk.live.Keys)}
  {
    hide Inv, Reaches, Erase, AfterAck, Candidates, Enabled;
    FirstOf(s);
    var k := LeastFrom(Reservable(s), 0).value;
    acts := ReserveAlone(s, 0, 0);
    assert s.calls - {0} == map[];
    var s1, s2 := AfterScan(s, 0, 0, 0), s;
    acts, s2 := AckAlone(s, acts, s1, 0, true);
    acts, s' := NotifyAlone(s, acts, s2);
    ReachKeeps(s, acts, s');
    BelowTail(s, k);
    Erased(s.disk, k, s.cfg.ackDurable);
    AckKeepsTail(s1.q, k, |s.disk.live[k].value|);
  }

  lemma NotifyAlone(s0: State, acts0: seq<Action>, s: State) returns (acts: seq<Action>, s': State)
    requires Reaches(s0, acts0, s, true) && s.threads == map[]
    requires 0 in s.guards && s.guards[0].phase == Settled
    ensures Reaches(s0, acts, s', true) && s' == s.(guards := s.guards - {0})
    ensures NoneFails(acts0) ==> NoneFails(acts)
  {
    hide Reaches;
    Extend(s0, acts0, s, NotifyAck(0, None), true);
    acts, s' := acts0 + [NotifyAck(0, None)], Apply(s, NotifyAck(0, None));
  }

  lemma NothingReserved(s: State)
    requires Inv(s) && s.guards == map[]
    ensures s.q.reserved == {}
  {
    hide BookInv, AccountInv, HeadInv, ScanInv;
    ReservedExactly(s);
  }

  lemma BelowTail(s: State, k: nat)
    requires Inv(s) && k in s.disk.live
    ensures k < s.q.tail
  {
    HeadPassesNothing(s);
  }

  lemma Erased(d: Disk, k: nat, durable: bool)
    ensures Erase(d, k, durable).live == d.live - {k}
    ensures forall j :: j != k ==> Candidates(Erase(d, k, durable), j) == Candidates(d, j)
  {
  }

  lemma AckKeepsTail(q: Inner, k: nat, size: nat)
    ensures AfterAck(q, k, size).tail == q.tail && AfterAck(q, k, size).closed == q.closed
  {
  }

  lemma {:induction false} DrainAlone(s: State) returns (acts: seq<Action>, s': State)
    requires Inv(s) && AtRest(s)
    ensures Reaches(s, acts, s', true) && Settles(s, s') && s'.disk.live == map[]
    decreases |s.disk.live|
  {
    hide Inv, Reaches, AtRest, Candidates;
    if s.disk.live == map[] {
      NoActs(s, true);
      acts, s' := [], s;
    } else {
      var s1, rest;
      acts, s1 := DeliverAlone(s);
      MapRemoveSize(s.disk.live, Min(s.disk.live.Keys));
      rest, s' := DrainAlone(s1);
      Join(s, acts, s1, rest, s', true);
      acts := acts + rest;
    }
  }

  /** A push whose commit fails leaves only its seq behind. */
  lemma BurnAlone(s: State) returns (acts: seq<Action>, s': State)
    requires AtRest(s) && s.q.len == 0 && s.cfg.capacity >= 1 && s.q.tail < U64_MAX
    ensures Reaches(s, acts, s', true)
    ensures AtRest(s') && s'.q == s.q.(tail := s.q.tail + 1) && s'.disk == s.disk && s'.cfg == s.cfg
  {
    hide Reaches;
    NoActs(s, true);
    acts := ClaimAlone(s, [], s, 0, [], true);
    s' := Claim(s, 0, []);
    Extend(s, acts, s', Commit(0, false), true);
    acts, s' := acts + [Commit(0, false)], DoCommit(s', 0, false);
    Extend(s, acts, s', GiveBack(0), true);
    acts, s' := acts + [GiveBack(0)], DoGiveBack(s', 0);
    Extend(s, acts, s', NotifyRoom(0, None), true);
    acts, s' := acts + [NotifyRoom(0, None)], Apply(s', NotifyRoom(0, None));
  }

  lemma {:induction false} ClaimExactly(s: State, k: nat) returns (acts: seq<Action>, s': State)
    requires AtRest(s) && s.q.len == 0 && s.cfg.capacity >= 1 && s.q.tail <= k < U64_MAX
    ensures Reaches(s, acts, s', true)
    ensures 0 in s'.threads && s'.threads[0].Claimed? && s'.threads[0].no == k && s'.disk == s.disk
    decreases k - s.q.tail
  {
    hide Reaches;
    if s.q.tail == k {
      NoActs(s, true);
      acts := ClaimAlone(s, [], s, 0, [], true);
      s' := Claim(s, 0, []);
    } else {
      var s1, rest;
      acts, s1 := BurnAlone(s);
      rest, s' := ClaimExactly(s1, k);
      Join(s, acts, s1, rest, s', true);
      acts := acts + rest;
    }
  }

  lemma RestIsEmpty(s: State)
    requires Inv(s) && AtRest(s) && s.disk.live == map[]
    ensures s.q.len == 0
  {
    Conservation(s);
    assert ClaimedSeqs(s) == {} && FailedSeqs(s) == {} && DeletedSeqs(s) == {} && s.disk.live.Keys == {};
    hide Inv;
  }

  lemma PutOver(s: State, k: nat) returns (acts: seq<Action>)
    requires Inv(s) && AtRest(s) && s.cfg.capacity >= 1 && s.q.tail <= k < U64_MAX && !Unused(s.disk, k)
    ensures CanRun(s, acts, true) && !NextPutFresh(Run(s, acts, true))
  {
    hide Inv, AtRest, Candidates;
    var s1, s2, rest;
    acts, s1 := DrainAlone(s);
    RestIsEmpty(s1);
    rest, s2 := ClaimExactly(s1, k);
    Join(s, acts, s1, rest, s2, true);
    acts := acts + rest;
  }

  /**
   A session never puts over anything, on disk or in memory, exactly when nothing is on disk
   from the recovered `tail` on. After a power loss that always holds. It can fail when the
   store is reopened without one: an unsynced delete of the top entries leaves them on disk
   and out of the scan.
   */
  lemma OverwritingExactly(cfg: Config, disk: Disk, h: History)
    requires cfg.capacity >= 1
    ensures NeverOverwrites(Open(cfg, disk, h)) <==>
            forall k: nat :: Recovered(Values(disk.live)).tail <= k < U64_MAX ==> Unused(disk, k)
  {
    var s := Open(cfg, disk, h);
    OpenKeeps(cfg, disk, h);
    hide Inv, Unused, NextPutFresh;
    if forall k: nat :: s.q.tail <= k < U64_MAX ==> Unused(disk, k) {
      forall acts | CanRun(s, acts, true)
        ensures NextPutFresh(Run(s, acts, true))
      {
        FreshRun(s, acts);
        PutIsFresh(Run(s, acts, true));
      }
    } else {
      var k: nat :| s.q.tail <= k < U64_MAX && !Unused(disk, k);
      var acts := PutOver(s, k);
    }
  }

  lemma CrashIsFresh(cfg: Config, survivors: map<nat, Item>, h: History)
    ensures FreshInv(Open(cfg, Disk(survivors, map[]), h))
  {
    TopOf(Values(survivors));
  }

  /** One item pushed and acked, the ack unsynced: reopened without a power loss, the store breaks the condition. */
  lemma ReopenedOverwrites(cfg: Config) returns (acts: seq<Action>, s: State)
    requires cfg.capacity >= 1 && !cfg.ackDurable
    ensures Reaches(Open(cfg, Disk(map[], map[]), NoHistory()), acts, s, true)
    ensures var s' := Open(cfg, s.disk, s.h); s'.q.tail == 0 && !Unused(s'.disk, 0) && !NeverOverwrites(s')
  {
    hide Inv, Reaches;
    var s0 := Open(cfg, Disk(map[], map[]), NoHistory());
    OpenKeeps(cfg, Disk(map[], map[]), NoHistory());
    NoActs(s0, true);
    SumToEmpty(0);
    acts := ClaimAlone(s0, [], s0, 0, [], true);
    var s1 := Claim(s0, 0, []);
    Extend(s0, acts, s1, Commit(0, true), true);
    acts, s1 := acts + [Commit(0, true)], DoCommit(s1, 0, true);
    Extend(s0, acts, s1, Return(0), true);
    acts, s1 := acts + [Return(0)], DoReturn(s1, 0);
    ReachKeeps(s0, acts, s1);
    acts, s := AckOnly(s0, acts, s1);
    assert s.disk.live == map[];
    OverwritingExactly(cfg, s.disk, s.h);
    assert !Unused(s.disk, 0);
  }

  lemma AckOnly(s0: State, acts0: seq<Action>, s: State) returns (acts: seq<Action>, s': State)
    requires Reaches(s0, acts0, s, true) && Inv(s) && AtRest(s) && s.disk.live.Keys == {0}
    ensures Reaches(s0, acts, s', true) && s'.disk == Erase(s.disk, 0, s.cfg.ackDurable)
  {
    hide Inv, Reaches, Erase, AfterAck, Enabled;
    FirstOf(s);
    var reserve := ReserveAlone(s, 0, 0);
    assert s.calls - {0} == map[];
    Join(s0, acts0, s, reserve, AfterScan(s, 0, 0, 0), true);
    acts, s' := AckAlone(s0, acts0 + reserve, AfterScan(s, 0, 0, 0), 0, true);
  }
}
