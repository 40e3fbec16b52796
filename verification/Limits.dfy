/** Where two of the queue's promises stop: concrete runs, and the exact conditions. */
module Limits {
  import opened Base
  import opened Protocol
  import opened Invariants
  import opened Theorems
  import opened Wakeups
  import opened Alone

  // ---- a byte bound can strand a producer whose value fits ----

  /** Two items are queued, one of them committed. */
  lemma QueueTwo(cfg: Config) returns (s: State, acts: seq<Action>)
    requires cfg.capacity >= 2 && 1 <= cfg.maxBytes < USIZE_MAX
    ensures Reaches(Fresh(cfg), acts, s, true)
    ensures s.cfg == cfg && s.q == Inner(2, 0, {}, 2, cfg.maxBytes, {}, false)
    ensures s.disk.live == map[0 := Item(0, Filler(cfg.maxBytes))]
    ensures s.guards == map[] && s.calls == map[]
    ensures s.threads.Keys == {0, 1} && s.threads[0].Stored? && s.threads[1].Claimed?
  {
    hide Reaches;
    var s0 := Fresh(cfg);
    NoActs(s0, true);
    SumToEmpty(0);
    var x, y := Filler(cfg.maxBytes), Filler(0);
    acts := ClaimAlone(s0, [], s0, 0, x, true);
    var s1 := Claim(s0, 0, x);
    Extend(s0, acts, s1, Commit(0, true), true);
    acts := acts + [Commit(0, true)];
    var s2 := DoCommit(s1, 0, true);
    acts := ClaimAlone(s0, acts, s2, 1, y, true);
    s := Claim(s2, 1, y);
  }

  /** Then a push larger than the byte bound and a small one wait. */
  lemma QueueTwoAndWait(cfg: Config) returns (s: State, acts: seq<Action>)
    requires cfg.capacity >= 2 && 1 <= cfg.maxBytes < USIZE_MAX
    ensures Reaches(Fresh(cfg), acts, s, true)
    ensures s.cfg == cfg && s.q == Inner(2, 0, {}, 2, cfg.maxBytes, {}, false)
    ensures s.disk.live == map[0 := Item(0, Filler(cfg.maxBytes))]
    ensures s.guards == map[] && s.calls == map[]
    ensures s.threads.Keys == {0, 1, 2, 3} && s.threads[0].Stored? && s.threads[1].Claimed?
    ensures s.threads[2] == Asleep(Filler(cfg.maxBytes + 1)) && s.threads[3] == Asleep(Filler(1))
  {
    hide Reaches;
    var big, small := Filler(cfg.maxBytes + 1), Filler(1);
    s, acts := QueueTwo(cfg);
    acts := SleepAlone(Fresh(cfg), acts, s, 2, big, true);
    s := s.(threads := s.threads[2 := Asleep(big)]);
    acts := SleepAlone(Fresh(cfg), acts, s, 3, small, true);
    s := s.(threads := s.threads[3 := Asleep(small)]);
  }

  /** The first item is reserved. */
  lemma ReserveFirst(s0: State, acts0: seq<Action>, s: State) returns (s': State, acts: seq<Action>)
    requires Inv(s0) && Reaches(s0, acts0, s, true)
    requires s.q.reserved == {} && s.disk.live.Keys == {0} && s.guards == map[] && s.calls == map[]
    ensures Reaches(s0, acts, s', true)
    ensures s'.cfg == s.cfg && s'.threads == s.threads && s'.calls == map[] && s'.disk == s.disk
    ensures s'.q == s.q.(reserved := {0}) && s'.guards == map[0 := Guard(0, s.disk.live[0], Held)]
  {
    ReachKeeps(s0, acts0, s);
    hide Reaches, Inv;
    var scan := ReserveAlone(s, 0, 0);
    LeastIs(Reservable(s), 0, 0);
    s' := AfterScan(s, 0, 0, 0);
    assert s.calls - {0} == map[];
    Join(s0, acts0, s, scan, s', true);
    acts := acts0 + scan;
  }

  /** The first item is delivered and acked. */
  lemma AckFirst(s0: State, acts0: seq<Action>, s: State) returns (s': State, acts: seq<Action>)
    requires Inv(s0) && Reaches(s0, acts0, s, true)
    requires s.q.head == 0 && s.q.ackedAbove == {} && s.q.reserved == {}
    requires s.disk.live.Keys == {0} && s.guards == map[] && s.calls == map[]
    ensures Reaches(s0, acts, s', true)
    ensures s'.cfg == s.cfg && s'.threads == s.threads && s'.calls == map[]
    ensures s'.q == s.q.(head := 1, len := s.q.len - 1, bytes := s.q.bytes - |s.disk.live[0].value|)
    ensures s'.guards == map[0 := Guard(0, s.disk.live[0], Settled)]
  {
    hide Reaches, Inv;
    s', acts := ReserveFirst(s0, acts0, s);
    acts, s' := AckAlone(s0, acts, s', 0, true);
  }

  /** The ack's one notification goes to the push that still does not fit; the one that fits sleeps on. */
  lemma WakeWrongOne(s0: State, acts0: seq<Action>, s: State) returns (acts: seq<Action>, s': State)
    requires Reaches(s0, acts0, s, true) && s.cfg.capacity >= 2 && 1 <= s.cfg.maxBytes < USIZE_MAX
    requires s.q == Inner(2, 1, {}, 1, 0, {}, false)
    requires s.guards.Keys == {0} && s.guards[0].phase == Settled
    requires s.threads.Keys == {0, 1, 2, 3} && s.threads[0].Stored? && s.threads[1].Claimed?
    requires s.threads[2] == Asleep(Filler(s.cfg.maxBytes + 1)) && s.threads[3] == Asleep(Filler(1))
    ensures Reaches(s0, acts, s', true) && Stranded(s')
  {
    hide Reaches;
    var a1, a2 := NotifyAck(0, Some(2)), Recheck(2);
    Extend(s0, acts0, s, a1, true);
    var s1 := Apply(s, a1);
    Extend(s0, acts0 + [a1], s1, a2, true);
    acts, s' := acts0 + [a1] + [a2], Try(s1, 2, Filler(s.cfg.maxBytes + 1), true);
    assert Awake(s'.threads) == {} && Settling(s'.guards) == {};
    assert s'.threads[3] == Asleep(Filler(1));
  }

  lemma ByteBoundStrands(cfg: Config) returns (acts: seq<Action>)
    requires cfg.capacity >= 2 && 1 <= cfg.maxBytes < USIZE_MAX
    ensures CanRun(Fresh(cfg), acts, true) && Stranded(Run(Fresh(cfg), acts, true))
  {
    OpenKeeps(cfg, Disk(map[], map[]), NoHistory());
    hide Inv, CanRun, Run, Stranded;
    var s, queued := QueueTwoAndWait(cfg);
    var s1, acked := AckFirst(Fresh(cfg), queued, s);
    var s2;
    acts, s2 := WakeWrongOne(Fresh(cfg), acked, s1);
  }

  /**
   A push whose value would fit is never left asleep with no wake on the way exactly when
   only the item count can make a push wait: no byte bound, or room for a single item.
   */
  lemma StrandingExactly(cfg: Config)
    requires cfg.capacity > 0 && 0 < cfg.maxBytes <= USIZE_MAX
    ensures NeverStrands(cfg) <==> cfg.maxBytes == USIZE_MAX || cfg.capacity == 1
  {
    if cfg.maxBytes == USIZE_MAX || cfg.capacity == 1 {
      forall acts | CanRun(Fresh(cfg), acts, true)
        ensures !Stranded(Run(Fresh(cfg), acts, true))
      {
        OpenKeeps(cfg, Disk(map[], map[]), NoHistory());
        RunKeeps(Fresh(cfg), acts);
        WakeRun(Fresh(cfg), acts);
        hide Inv;
        NotStranded(Run(Fresh(cfg), acts, true));
      }
    } else {
      var acts := ByteBoundStrands(cfg);
    }
  }

  // ---- an ack overlapping a reserve ----

  /** A guard on an entry that has been acked and deleted, which `reserve` handed out a second time. */
  predicate Stale(s: State, g: nat) {
    g in s.guards && s.guards[g].phase == Held && s.guards[g].no !in s.disk.live
  }

  /** One item is queued and reserved as guard 0. */
  lemma ReserveOne(cfg: Config) returns (s: State, acts: seq<Action>)
    requires cfg.capacity >= 1
    ensures Reaches(Fresh(cfg), acts, s, false)
    ensures s.disk.live == map[0 := Item(0, [])] && s.guards == map[0 := Guard(0, Item(0, []), Held)]
    ensures s.q.head == 0 && s.q.len == 1 && s.q.reserved == {0} && s.calls == map[]
  {
    hide Reaches;
    var s0 := Fresh(cfg);
    NoActs(s0, false);
    SumToEmpty(0);
    acts := ClaimAlone(s0, [], s0, 0, [], false);
    var s1 := Claim(s0, 0, []);
    Extend(s0, acts, s1, Commit(0, true), false);
    acts := acts + [Commit(0, true)];
    var s2 := DoCommit(s1, 0, true);
    Extend(s0, acts, s2, BeginReserve(0), false);
    acts := acts + [BeginReserve(0)];
    var s3 := Apply(s2, BeginReserve(0));
    var scan := ScanAlone(s3, 0, 0, false);
    LeastIs(Reservable(s3), 0, 0);
    s := AfterScan(s3, 0, 0, 0);
    assert s3.calls - {0} == map[];
    Join(s0, acts, s3, scan, s, false);
    acts := acts + scan;
  }

  /** A second `reserve` finds that entry. */
  lemma FindAgain(cfg: Config) returns (s: State, acts: seq<Action>)
    requires cfg.capacity >= 1
    ensures Reaches(Fresh(cfg), acts, s, false)
    ensures s.disk.live == map[0 := Item(0, [])] && s.guards == map[0 := Guard(0, Item(0, []), Held)]
    ensures s.q.head == 0 && s.q.len == 1 && s.q.reserved == {0}
    ensures 1 in s.calls && s.calls[1].Sought? && s.calls[1].no == 0 && s.calls[1].item == Item(0, [])
  {
    hide Reaches;
    var s0 := Fresh(cfg);
    s, acts := ReserveOne(cfg);
    hide Fresh;
    Extend(s0, acts, s, BeginReserve(1), false);
    acts, s := acts + [BeginReserve(1)], Apply(s, BeginReserve(1));
    LeastIs(s.disk.live.Keys, 0, 0);
    Extend(s0, acts, s, Seek(1, true), false);
    acts, s := acts + [Seek(1, true)], DoSeek(s, 1, true);
  }

  /** Its ack then finishes, and the `reserve` hands it out. */
  lemma HandOutTwice(cfg: Config) returns (s: State, acts: seq<Action>)
    requires cfg.capacity >= 1
    ensures Reaches(Fresh(cfg), acts, s, false) && s.q.len == 0 && Stale(s, 1)
  {
    hide Reaches, Fresh;
    var s0 := Fresh(cfg);
    s, acts := FindAgain(cfg);
    acts, s := AckAlone(s0, acts, s, 0, false);
    assert s.q.reserved == {} && s.disk.live == map[];
    Extend(s0, acts, s, Take(1, 1), false);
    acts, s := acts + [Take(1, 1)], DoTake(s, 1, 1);
  }

  /**
   With a second consumer thread, a `reserve` can find an entry, an `ack` of the guard that
   holds it can then finish, and the `reserve` hands the deleted entry out again: acking
   that guard takes `len` below zero.
   */
  lemma OverlapMiscounts(cfg: Config) returns (acts: seq<Action>)
    requires cfg.capacity >= 1
    ensures CanRun(Fresh(cfg), acts, false) && Run(Fresh(cfg), acts, false).q.len < 0
  {
    var s0 := Fresh(cfg);
    var s;
    s, acts := HandOutTwice(cfg);
    acts, s := AckAlone(s0, acts, s, 1, false);
  }

  /** `len` and `bytes` are those of what is outstanding. */
  ghost predicate CountsExactly(s: State) {
    s.q.len == Outstandings(s) && AccountInv(s)
  }

  lemma CountsWell(s: State)
    requires Inv(s)
    ensures CountsExactly(s)
  {
    CountIs(s);
    hide Outstandings;
  }

  // ---- a failed commit that took effect ----

  /** Everything that should count against `len`. */
  function Outstandings(s: State): nat {
    |s.disk.live| + |ClaimedSeqs(s)| + |FailedSeqs(s)| + |DeletedSeqs(s)|
  }

  /** A push whose commit reported an error and whose slot is then given back; with `applied` the entry landed all the same. */
  function PushFails(s: State, t: nat, applied: bool): State
    requires Enabled(s, Commit(t, false))
  {
    var Claimed(k, item) := s.threads[t];
    var s' := DoGiveBack(DoCommit(s, t, false), t);
    if applied then s'.(disk := Put(s.disk, k, item, s.cfg.durable)) else s'
  }

  /** An ack whose delete reported an error; with `applied` the entry went all the same. */
  function AckFails(s: State, g: nat, applied: bool): State
    requires Enabled(s, Delete(g, false))
  {
    var s' := Apply(DoDelete(s, g, false), Release(g));
    if applied then s'.(disk := Erase(s.disk, s.guards[g].no, s.cfg.ackDurable)) else s'
  }

  lemma OthersClaim(s: State, t: nat)
    requires Inv(s) && t in s.threads && s.threads[t].Claimed?
    ensures s.threads[t].no !in s.disk.live && s.threads[t].no in ClaimedSeqs(s)
    ensures forall u :: u in s.threads && u != t && s.threads[u].Claimed? ==> s.threads[u].no != s.threads[t].no
  {
    OwnerKnown(s, t);
    forall u | u in s.threads && u != t && s.threads[u].Claimed?
      ensures s.threads[u].no != s.threads[t].no
    {
      OwnerKnown(s, u);
    }
  }

  lemma PushFailsIs(s: State, t: nat, applied: bool)
    requires Enabled(s, Commit(t, false))
    ensures var Claimed(k, item) := s.threads[t]; var s' := PushFails(s, t, applied);
            && s'.q.len == s.q.len - 1 && s'.threads == s.threads[t := Owes(s.threads[t].no, s.threads[t].item)] && s'.guards == s.guards
            && s'.disk.live == if applied then s.disk.live[k := item] else s.disk.live
  {
  }

  lemma CountIs(s: State)
    requires Inv(s)
    ensures s.q.len == Outstandings(s)
  {
    hide Inv;
    Conservation(s);
  }

  lemma SeqsAfterPush(s: State, s': State, t: nat)
    requires Inv(s) && t in s.threads && s.threads[t].Claimed?
    requires s'.threads == s.threads[t := Owes(s.threads[t].no, s.threads[t].item)] && s'.guards == s.guards
    ensures |ClaimedSeqs(s')| == |ClaimedSeqs(s)| - 1
    ensures FailedSeqs(s') == FailedSeqs(s) && DeletedSeqs(s') == DeletedSeqs(s)
  {
    hide Inv;
    OthersClaim(s, t);
    ThreadSeqs(s, s', t);
    GuardSeqs(s, s');
  }

  lemma ThreadSeqs(s: State, s': State, t: nat)
    requires forall u :: u != t ==> Lookup(s'.threads, u) == Lookup(s.threads, u)
    requires t in s'.threads ==> !s'.threads[t].Claimed? && !s'.threads[t].Failed?
    requires t in s.threads && s.threads[t].Claimed?
    requires forall u :: u in s.threads && u != t && s.threads[u].Claimed? ==> s.threads[u].no != s.threads[t].no
    ensures ClaimedSeqs(s') == ClaimedSeqs(s) - {s.threads[t].no} && FailedSeqs(s') == FailedSeqs(s)
  {
    forall k | k in ClaimedSeqs(s') + FailedSeqs(s')
      ensures k in ClaimedSeqs(s') ==> k in ClaimedSeqs(s) && k != s.threads[t].no
      ensures k in FailedSeqs(s') ==> k in FailedSeqs(s)
    {
      assert forall u :: u in s'.threads && u != t ==> Lookup(s.threads, u) == Some(s'.threads[u]);
    }
    forall k | k in ClaimedSeqs(s) + FailedSeqs(s)
      ensures k in ClaimedSeqs(s) && k != s.threads[t].no ==> k in ClaimedSeqs(s')
      ensures k in FailedSeqs(s) ==> k in FailedSeqs(s')
    {
      assert forall u :: u in s.threads && u != t ==> Lookup(s'.threads, u) == Some(s.threads[u]);
    }
  }

  lemma GuardSeqs(s: State, s': State)
    requires forall g :: g in s.guards && s.guards[g].phase == Deleted ==> Lookup(s'.guards, g) == Some(s.guards[g])
    requires forall g :: g in s'.guards ==> Lookup(s.guards, g) == Some(s'.guards[g])
    ensures DeletedSeqs(s') == DeletedSeqs(s)
  {
    forall k | k in DeletedSeqs(s)
      ensures k in DeletedSeqs(s')
    {
      var g :| g in s.guards && s.guards[g].phase == Deleted && s.guards[g].no == k;
      assert Lookup(s'.guards, g) == Some(s.guards[g]);
    }
    forall k | k in DeletedSeqs(s')
      ensures k in DeletedSeqs(s)
    {
      var g :| g in s'.guards && s'.guards[g].phase == Deleted && s'.guards[g].no == k;
      assert Lookup(s.guards, g) == Some(s'.guards[g]);
    }
  }

  /** After a failed push the count is right exactly when the failed commit changed nothing. */
  lemma FailedPushCounts(s: State, t: nat, applied: bool)
    requires Inv(s) && Enabled(s, Commit(t, false))
    ensures var s' := PushFails(s, t, applied); s'.q.len == Outstandings(s') <==> !applied
  {
    hide Inv, ClaimedSeqs, FailedSeqs, DeletedSeqs;
    CountIs(s);
    OthersClaim(s, t);
    PushFailsIs(s, t, applied);
    SeqsAfterPush(s, PushFails(s, t, applied), t);
    hide PushFails;
    var k, item, live := s.threads[t].no, s.threads[t].item, s.disk.live;
    assert live[k := item] - {k} == live;
    MapRemoveSize(live[k := item], k);
  }

  lemma AckFailsIs(s: State, g: nat, applied: bool)
    requires Enabled(s, Delete(g, false))
    ensures var k, s' := s.guards[g].no, AckFails(s, g, applied);
            && s'.q.len == s.q.len && s'.threads == s.threads && s'.guards == s.guards - {g}
            && s'.disk.live == if applied then s.disk.live - {k} else s.disk.live
  {
    var s' := AckFails(s, g, applied);
    assert s'.guards == s.guards - {g};
  }

  lemma SeqsAfterAck(s: State, s': State, g: nat)
    requires g in s.guards && s.guards[g].phase != Deleted
    requires s'.threads == s.threads && s'.guards == s.guards - {g}
    ensures ClaimedSeqs(s') == ClaimedSeqs(s) && FailedSeqs(s') == FailedSeqs(s) && DeletedSeqs(s') == DeletedSeqs(s)
  {
    GuardSeqs(s, s');
  }

  /** After a failed ack the count is right exactly when the failed delete changed nothing. */
  lemma FailedAckCounts(s: State, g: nat, applied: bool)
    requires Inv(s) && Enabled(s, Delete(g, false))
    ensures var s' := AckFails(s, g, applied); s'.q.len == Outstandings(s') <==> !applied
  {
    hide Inv, Outstandings, AckFails, Enabled, ClaimedSeqs, FailedSeqs, DeletedSeqs;
    AckingNow(s, g);
    CountIs(s);
    AckFailsIs(s, g, applied);
    SeqsAfterAck(s, AckFails(s, g, applied), g);
    GuardIsLive(s, g);
    OneLess(s, AckFails(s, g, applied), s.guards[g].no, applied);
  }

  lemma AckingNow(s: State, g: nat)
    requires Enabled(s, Delete(g, false))
    ensures g in s.guards && s.guards[g].phase == Acking
  {
  }

  lemma OneLess(s: State, s': State, k: nat, gone: bool)
    requires s.q.len == Outstandings(s) == s'.q.len && k in s.disk.live
    requires ClaimedSeqs(s') == ClaimedSeqs(s) && FailedSeqs(s') == FailedSeqs(s) && DeletedSeqs(s') == DeletedSeqs(s)
    requires s'.disk.live == if gone then s.disk.live - {k} else s.disk.live
    ensures s'.q.len == Outstandings(s') <==> !gone
  {
    MapRemoveSize(s.disk.live, k);
    hide ClaimedSeqs, FailedSeqs, DeletedSeqs;
  }

  // ---- exactly when the counters are right ----

  /** A step, or a failed push or ack whose commit took effect all the same. */
  datatype Deed = Does(a: Action) | PushLies(t: nat) | AckLies(g: nat)

  /** `serial`: one consumer thread; `honest`: a failed commit changes nothing. */
  predicate CanDo(s: State, d: Deed, serial: bool, honest: bool) {
    match d
    case Does(a) => Allowed(s, a, serial)
    case PushLies(t) => !honest && Enabled(s, Commit(t, false))
    case AckLies(g) => !honest && Enabled(s, Delete(g, false))
  }

  function Do(s: State, d: Deed, serial: bool, honest: bool): State
    requires CanDo(s, d, serial, honest)
  {
    match d
    case Does(a) => Apply(s, a)
    case PushLies(t) => PushFails(s, t, true)
    case AckLies(g) => AckFails(s, g, true)
  }

  predicate CanDoAll(s: State, ds: seq<Deed>, serial: bool, honest: bool)
    decreases ds
  {
    ds == [] || (CanDo(s, ds[0], serial, honest) && CanDoAll(Do(s, ds[0], serial, honest), ds[1..], serial, honest))
  }

  function DoAll(s: State, ds: seq<Deed>, serial: bool, honest: bool): State
    requires CanDoAll(s, ds, serial, honest)
    decreases ds
  {
    if ds == [] then s else DoAll(Do(s, ds[0], serial, honest), ds[1..], serial, honest)
  }

  ghost predicate NeverMiscounts(cfg: Config, serial: bool, honest: bool) {
    forall ds :: CanDoAll(Fresh(cfg), ds, serial, honest) ==> CountsExactly(DoAll(Fresh(cfg), ds, serial, honest))
  }

  lemma {:induction false} DeedsKeep(s: State, ds: seq<Deed>)
    requires Inv(s) && CanDoAll(s, ds, true, true)
    ensures Inv(DoAll(s, ds, true, true))
    decreases ds
  {
    hide Inv, OneConsumer, Enabled, Apply;
    if ds != [] {
      StepKeeps(s, ds[0].a);
      DeedsKeep(Apply(s, ds[0].a), ds[1..]);
    }
  }

  function Deeds(acts: seq<Action>): (ds: seq<Deed>)
    ensures |ds| == |acts| && forall i :: 0 <= i < |acts| ==> ds[i] == Does(acts[i])
  {
    seq(|acts|, i requires 0 <= i < |acts| => Does(acts[i]))
  }

  lemma {:induction false} DeedsRun(s: State, acts: seq<Action>, serial: bool, honest: bool)
    requires CanRun(s, acts, serial)
    ensures CanDoAll(s, Deeds(acts), serial, honest) && DoAll(s, Deeds(acts), serial, honest) == Run(s, acts, serial)
    decreases acts
  {
    hide OneConsumer, Enabled, Apply;
    if acts != [] {
      assert Deeds(acts)[1..] == Deeds(acts[1..]);
      DeedsRun(Apply(s, acts[0]), acts[1..], serial, honest);
    }
  }

  /** One push whose commit lands and reports an error: the queue forgets it. */
  lemma LieMiscounts(cfg: Config, serial: bool) returns (ds: seq<Deed>)
    requires cfg.capacity >= 1
    ensures CanDoAll(Fresh(cfg), ds, serial, false) && !CountsExactly(DoAll(Fresh(cfg), ds, serial, false))
  {
    var s0 := Fresh(cfg);
    OpenKeeps(cfg, Disk(map[], map[]), NoHistory());
    SumToEmpty(0);
    NoActs(s0, true);
    var acts := ClaimAlone(s0, [], s0, 0, [], true);
    var s1 := Claim(s0, 0, []);
    ReachKeeps(s0, acts, s1);
    hide Inv, Outstandings;
    FailedPushCounts(s1, 0, true);
    ds := [Does(Arrive(0, [], true)), PushLies(0)];
    LieRuns(s0, s1, serial);
  }

  lemma LieRuns(s0: State, s1: State, serial: bool)
    requires Enabled(s0, Arrive(0, [], true)) && s1 == Apply(s0, Arrive(0, [], true)) && Enabled(s1, Commit(0, false))
    ensures var ds := [Does(Arrive(0, [], true)), PushLies(0)];
            CanDoAll(s0, ds, serial, false) && DoAll(s0, ds, serial, false) == PushFails(s1, 0, true)
  {
    var ds := [Does(Arrive(0, [], true)), PushLies(0)];
    hide Apply, PushFails;
    var s2 := PushFails(s1, 0, true);
    assert ds[1..] == [PushLies(0)] && ds[1..][1..] == [];
    assert CanDoAll(s2, [], serial, false) && DoAll(s2, [], serial, false) == s2;
    assert CanDoAll(s1, ds[1..], serial, false) && DoAll(s1, ds[1..], serial, false) == DoAll(s2, ds[1..][1..], serial, false);
  }

  /** The counters are exact in every run exactly when the consumer is one thread and a failed commit changes nothing. */
  lemma MiscountingExactly(cfg: Config, serial: bool, honest: bool)
    requires cfg.capacity >= 1
    ensures NeverMiscounts(cfg, serial, honest) <==> serial && honest
  {
    if serial && honest {
      forall ds | CanDoAll(Fresh(cfg), ds, true, true)
        ensures CountsExactly(DoAll(Fresh(cfg), ds, true, true))
      {
        OpenKeeps(cfg, Disk(map[], map[]), NoHistory());
        hide Inv, CountsExactly;
        DeedsKeep(Fresh(cfg), ds);
        CountsWell(DoAll(Fresh(cfg), ds, true, true));
      }
    } else if !serial {
      hide Outstandings, Fresh;
      var acts := OverlapMiscounts(cfg);
      DeedsRun(Fresh(cfg), acts, false, honest);
    } else {
      hide CountsExactly;
      var ds := LieMiscounts(cfg, serial);
    }
  }
}
