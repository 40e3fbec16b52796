/** The other direction: group commit can do whatever one durable put per push can. */
module GroupLifts {
  import opened Base
  import opened Protocol
  import opened Invariants
  import opened Alone
  import opened Group
  import opened GroupRefines

  ghost predicate GReaches(g: GState, acts: seq<GAction>, g': GState) {
    GCanRun(g, acts, true) && GRun(g, acts, true) == g'
  }

  lemma NoGActs(g: GState)
    ensures GReaches(g, [], g)
  {
  }

  lemma {:induction false} GAppend(g: GState, a: seq<GAction>, g1: GState, b: seq<GAction>, g2: GState)
    requires GReaches(g, a, g1) && GReaches(g1, b, g2)
    ensures GReaches(g, a + b, g2)
    decreases a
  {
    hide GAllowed, GApply;
    if a == [] {
      assert a + b == b;
    } else {
      hide GReaches;
      GTail(g, a, g1);
      GAppend(GApply(g, a[0]), a[1..], g1, b, g2);
      assert (a + b)[1..] == a[1..] + b && (a + b)[0] == a[0];
      GCons(g, a + b, g2);
    }
  }

  lemma GTail(g: GState, acts: seq<GAction>, g': GState)
    requires GReaches(g, acts, g') && acts != []
    ensures GAllowed(g, acts[0], true) && GReaches(GApply(g, acts[0]), acts[1..], g')
  {
  }

  lemma GCons(g: GState, acts: seq<GAction>, g': GState)
    requires acts != [] && GAllowed(g, acts[0], true) && GReaches(GApply(g, acts[0]), acts[1..], g')
    ensures GReaches(g, acts, g')
  {
  }

  lemma GStepOn(g0: GState, acts0: seq<GAction>, g: GState, a: GAction) returns (acts: seq<GAction>, g': GState)
    requires GReaches(g0, acts0, g) && GAllowed(g, a, true)
    ensures GReaches(g0, acts, g') && g' == GApply(g, a) && acts == acts0 + [a]
  {
    g' := GApply(g, a);
    acts := acts0 + [a];
    NoGActs(g');
    assert [a][0] == a && [a][1..] == [];
    GCons(g, [a], g');
    GAppend(g0, acts0, g, [a], g');
  }

  /** A push returns a store error. */
  predicate FailedPush(a: GAction) {
    (a.Retry? && !a.ok) || (a.Plain? && a.a.Commit? && !a.a.ok)
  }

  predicate NoPushFails(acts: seq<GAction>) {
    forall a :: a in acts ==> !FailedPush(a)
  }

  /** A caller alone, its batch of one committed or failed, at each point where it holds no lock. */
  function Led1(s: State, n: nat, t: nat): GState
    requires t in s.threads && s.threads[t].Claimed?
  {
    var Claimed(k, item) := s.threads[t];
    GState(s, GroupState([], true, map[]), map[t := Leading([Entry(t, k, item)])], map[k := Ticket(t, n)], n)
  }

  function Flushed1(s: State, n: nat, t: nat, ok: bool): GState
    requires t in s.threads && s.threads[t].Claimed?
  {
    var Claimed(k, item) := s.threads[t];
    var base := if ok then DoCommit(s, t, true).(threads := s.threads) else s;
    GState(base, GroupState([], true, map[]), map[t := Recording([Entry(t, k, item)], ok)], map[k := Ticket(t, n)], n)
  }

  function Recorded1(s: State, n: nat, t: nat, ok: bool): GState
    requires t in s.threads && s.threads[t].Claimed?
  {
    if ok then Idle(DoCommit(s, t, true), n + 1)
    else GState(s, GroupState([], false, map[]), map[t := Retrying], map[], n + 1)
  }

  lemma OneBatch(s: State, n: nat, t: nat, ok: bool)
    requires Enabled(s, Commit(t, ok)) && s.cfg.group && s.cfg.durable
    ensures DoEnter(Idle(s, n), t) == Led1(s, n, t)
    ensures DoFlush(Led1(s, n, t), t, ok) == Flushed1(s, n, t, ok)
  {
    var Claimed(k, item) := s.threads[t];
    var e := Entry(t, k, item);
    assert [] + [e] == [e] && [e][1..] == [];
    assert PutAll(s.disk, [e]) == Put(s.disk, k, item, true);
    assert LandAll(s.h.book, [e]) == Mark(s.h.book, k, Live);
    assert SyncAll(s.h.synced, [e]) == s.h.synced + {item};
    hide PutAll, LandAll, SyncAll, Put, Mark;
  }

  lemma OneRecord(s: State, n: nat, t: nat, ok: bool)
    requires Enabled(s, Commit(t, ok)) && s.cfg.group && s.cfg.durable
    ensures DoRecord(Flushed1(s, n, t, ok), t) == Recorded1(s, n, t, ok)
  {
    var Claimed(k, item) := s.threads[t];
    var e := Entry(t, k, item);
    OneRecorded(e, ok);
    hide RecordAll, Put, Mark;
    var moved := NotifyAllWaiting(map[t := Recording([e], ok)]);
    assert moved == map[t := Recording([e], ok)];
    assert moved - {t} == map[] && moved[t := Retrying] == map[t := Retrying];
    var joined: map<nat, Ticket> := map[k := Ticket(t, n)];
    assert joined - {k} == map[];
  }

  lemma OneRecorded(e: Entry, ok: bool)
    ensures RecordAll(map[], [e], ok) == map[e.no := ok]
    ensures RecordAll(map[], [e], ok) - {e.no} == map[]
  {
    assert Nos([e]) == {e.no} by {
      assert e in [e];
    }
  }

  lemma BatchLifts(s: State, n: nat, t: nat, ok: bool) returns (acts: seq<GAction>)
    requires Enabled(s, Commit(t, ok)) && s.cfg.group && s.cfg.durable
    ensures GReaches(Idle(s, n), acts, Recorded1(s, n, t, ok)) && NoPushFails(acts)
  {
    hide GReaches;
    OneBatch(s, n, t, ok);
    OneRecord(s, n, t, ok);
    hide DoEnter, DoFlush, DoRecord, DoCommit, Enabled, Recorded1;
    NoGActs(Idle(s, n));
    var g;
    acts, g := GStepOn(Idle(s, n), [], Idle(s, n), Enter(t));
    acts, g := GStepOn(Idle(s, n), acts, g, Flush(t, ok));
    acts, g := GStepOn(Idle(s, n), acts, g, Record(t));
  }

  lemma CommitLifts(s: State, n: nat, t: nat, ok: bool) returns (acts: seq<GAction>)
    requires Enabled(s, Commit(t, ok)) && s.cfg.group && s.cfg.durable
    ensures GReaches(Idle(s, n), acts, Idle(DoCommit(s, t, ok), n + 1)) && (ok ==> NoPushFails(acts))
  {
    hide GReaches, DoCommit;
    acts := BatchLifts(s, n, t, ok);
    if !ok {
      var g;
      acts, g := GStepOn(Idle(s, n), acts, Recorded1(s, n, t, false), Retry(t, false));
      assert map[t := Retrying] - {t} == map[];
    }
  }

  lemma StepLifts(s: State, n: nat, a: Action) returns (acts: seq<GAction>, n': nat)
    requires Allowed(s, a, true) && (s.cfg.group ==> s.cfg.durable)
    ensures GReaches(Idle(s, n), acts, Idle(Apply(s, a), n')) && (NoneFails([a]) ==> NoPushFails(acts))
  {
    hide GReaches;
    assert a in [a];
    if s.cfg.group && a.Commit? {
      acts := CommitLifts(s, n, a.t, a.ok);
      n' := n + 1;
    } else {
      hide Apply, Enabled, OneConsumer;
      NoGActs(Idle(s, n));
      var g;
      acts, g := GStepOn(Idle(s, n), [], Idle(s, n), Plain(a));
      n' := n;
    }
  }

  /** Every run of one durable put per push is a run with group commit, from rest to rest, failing no push it does not. */
  lemma {:induction false} Lifts(s: State, n: nat, core: seq<Action>) returns (acts: seq<GAction>, n': nat)
    requires CanRun(s, core, true) && (s.cfg.group ==> s.cfg.durable)
    ensures GReaches(Idle(s, n), acts, Idle(Run(s, core, true), n')) && (NoneFails(core) ==> NoPushFails(acts))
    decreases core
  {
    hide GReaches, Apply, Enabled, OneConsumer;
    if core == [] {
      NoGActs(Idle(s, n));
      acts, n' := [], n;
    } else {
      assert core[0] in core && forall a :: a in core[1..] ==> a in core;
      var first, m := StepLifts(s, n, core[0]);
      CfgStays(s, core[0]);
      var rest;
      rest, n' := Lifts(Apply(s, core[0]), m, core[1..]);
      GAppend(Idle(s, n), first, Idle(Apply(s, core[0]), m), rest, Idle(Run(s, core, true), n'));
      acts := first + rest;
    }
  }
}
