/** With group commit too, each seq is claimed, put and acked at most once: lone retries included. */
module GroupOnce {
  import opened Base
  import opened Protocol
  import opened Invariants
  import opened Theorems
  import opened Alone
  import opened Group
  import opened GroupRefines

  // ---- what one step does to seq `k` ----

  /** A successful store commit of `k`: in a flushed batch, in a lone retry, or plain. */
  predicate GPut(g: GState, a: GAction, k: nat)
    requires GEnabled(g, a)
  {
    match a
    case Flush(t, ok) => ok && k in Nos(g.gpc[t].batch)
    case Retry(t, ok) => ok && g.base.threads[t].no == k
    case Plain(b) => b.Commit? && b.ok && g.base.threads[b.t].no == k
    case _ => false
  }

  predicate GClaim(g: GState, a: GAction, k: nat)
    requires GEnabled(g, a)
  {
    g.base.q.tail == k && GApply(g, a).base.q.tail == k + 1
  }

  predicate GAck(g: GState, a: GAction, k: nat)
    requires GEnabled(g, a)
  {
    a.Plain? && a.a.SettleAck? && g.base.guards[a.a.g].no == k
  }

  /** How often a run puts, claims and acks `k`. */
  function GPuts(g: GState, acts: seq<GAction>, k: nat): nat
    requires GCanRun(g, acts, true)
    decreases acts
  {
    if acts == [] then 0 else One(GPut(g, acts[0], k)) + GPuts(GApply(g, acts[0]), acts[1..], k)
  }

  function GClaims(g: GState, acts: seq<GAction>, k: nat): nat
    requires GCanRun(g, acts, true)
    decreases acts
  {
    if acts == [] then 0 else One(GClaim(g, acts[0], k)) + GClaims(GApply(g, acts[0]), acts[1..], k)
  }

  function GAcks(g: GState, acts: seq<GAction>, k: nat): nat
    requires GCanRun(g, acts, true)
    decreases acts
  {
    if acts == [] then 0 else One(GAck(g, acts[0], k)) + GAcks(GApply(g, acts[0]), acts[1..], k)
  }

  // ---- the same counts in the run it stands for ----

  lemma OneStepCounts(s: State, b: Action, k: nat)
    requires CanRun(s, [b], true)
    ensures Enabled(s, b)
    ensures Puts(s, [b], k) == One(b.Commit? && b.ok && s.threads[b.t].no == k)
    ensures Claims(s, [b], k) == One(s.q.tail == k && Apply(s, b).q.tail == k + 1)
    ensures Acks(s, [b], k) == One(b.SettleAck? && s.guards[b.g].no == k)
  {
    var s1 := Apply(s, b);
    assert [b][0] == b && [b][1..] == [];
    assert Puts(s1, [], k) == 0 && Claims(s1, [], k) == 0 && Acks(s1, [], k) == 0;
    hide Apply, Enabled, OneConsumer;
  }

  /** The commits of a batch put each of its seqs once. */
  lemma {:induction false} CommitsCounts(s: State, es: seq<Entry>, k: nat)
    requires AllClaimed(s.threads, es) && NoDup(es) && s.cfg.durable && CanRun(s, Commits(es), true)
    ensures Puts(s, Commits(es), k) == One(k in Nos(es))
    ensures Claims(s, Commits(es), k) == 0 && Acks(s, Commits(es), k) == 0
    decreases es
  {
    if es != [] {
      var e := es[0];
      assert e in es;
      var s1 := DoCommit(s, e.t, true);
      assert Commits(es)[0] == Commit(e.t, true) && Commits(es)[1..] == Commits(es[1..]);
      ClaimedRest(s.threads, es);
      CommitsCounts(s1, es[1..], k);
      FirstNo(es, k);
    }
  }

  lemma FirstNo(es: seq<Entry>, k: nat)
    requires es != [] && NoDup(es)
    ensures One(k in Nos(es)) == One(es[0].no == k) + One(k in Nos(es[1..]))
  {
    if k in Nos(es) {
      var e :| e in es && e.no == k;
      assert e == es[0] || e in es[1..];
    }
    if k in Nos(es[1..]) {
      var i :| 0 <= i < |es[1..]| && es[1..][i].no == k;
      assert es[i + 1].no == k && es[i + 1] in es && es[0].no != es[i + 1].no;
    }
    assert es[0] in es;
  }

  /** A step counts as the steps it amounts to. */
  lemma StepCounts(g: GState, a: GAction, k: nat)
    requires GInv(g) && Inv(Abs(g)) && GAllowed(g, a, true)
    ensures CanRun(Abs(g), Sim(g, a), true)
    ensures Puts(Abs(g), Sim(g, a), k) == One(GPut(g, a, k))
    ensures Claims(Abs(g), Sim(g, a), k) == One(GClaim(g, a, k))
    ensures Acks(Abs(g), Sim(g, a), k) == One(GAck(g, a, k))
  {
    GStep(g, a, true);
    AbsKeepsQueue(g);
    AbsKeepsQueue(GApply(g, a));
    hide Inv;
    match a
    case Plain(b) => PlainCounts(g, b, k);
    case Retry(t, ok) => RetryCounts(g, t, ok, k);
    case Flush(t, ok) =>
      if ok {
        FlushedNow(g, t, ok);
        FlushClaimed(g, t);
        hide GInv, Abs;
        CommitsCounts(Abs(g), g.gpc[t].batch, k);
      }
    case _ => hide GInv, Abs;
  }

  /** A caller not past its commit is the same thread in both. */
  lemma SameThread(g: GState, t: nat)
    requires t in Abs(g).threads && Abs(g).threads[t].Claimed?
    ensures t in g.base.threads && Abs(g).threads[t] == g.base.threads[t]
  {
    hide InStore;
  }

  lemma PlainCounts(g: GState, b: Action, k: nat)
    requires GInv(g) && GEnabled(g, Plain(b)) && CanRun(Abs(g), [b], true)
    ensures Puts(Abs(g), [b], k) == One(GPut(g, Plain(b), k))
    ensures Claims(Abs(g), [b], k) == One(GClaim(g, Plain(b), k))
    ensures Acks(Abs(g), [b], k) == One(GAck(g, Plain(b), k))
  {
    OneStepCounts(Abs(g), b, k);
    PlainStep(g, b);
    AbsKeepsQueue(g);
    AbsKeepsQueue(g.(base := Apply(g.base, b)));
    if b.Commit? {
      SameThread(g, b.t);
    }
    hide GInv, Abs, Apply, Puts, Claims, Acks;
  }

  lemma RetryCounts(g: GState, t: nat, ok: bool, k: nat)
    requires GInv(g) && GEnabled(g, Retry(t, ok)) && CanRun(Abs(g), [Commit(t, ok)], true)
    ensures Puts(Abs(g), [Commit(t, ok)], k) == One(GPut(g, Retry(t, ok), k))
    ensures Claims(Abs(g), [Commit(t, ok)], k) == 0 == One(GClaim(g, Retry(t, ok), k))
    ensures Acks(Abs(g), [Commit(t, ok)], k) == 0
  {
    OneStepCounts(Abs(g), Commit(t, ok), k);
    RetryStep(g, t, ok);
    SameThread(g, t);
    hide GInv, Abs, Puts, Claims, Acks;
  }

  // ---- runs ----

  lemma {:induction false} CountsAppend(s: State, a: seq<Action>, b: seq<Action>, k: nat)
    requires CanRun(s, a, true) && CanRun(Run(s, a, true), b, true)
    ensures CanRun(s, a + b, true)
    ensures Puts(s, a + b, k) == Puts(s, a, k) + Puts(Run(s, a, true), b, k)
    ensures Claims(s, a + b, k) == Claims(s, a, k) + Claims(Run(s, a, true), b, k)
    ensures Acks(s, a + b, k) == Acks(s, a, k) + Acks(Run(s, a, true), b, k)
    decreases a
  {
    hide Enabled, Apply, OneConsumer;
    RunAppend(s, a, b, true);
    if a == [] {
      assert a + b == b;
    } else {
      CountsAppend(Apply(s, a[0]), a[1..], b, k);
      assert (a + b)[1..] == a[1..] + b && (a + b)[0] == a[0];
    }
  }

  /** The run of single puts that a run stands for puts, claims and acks each seq exactly as often. */
  lemma {:induction false} RunCounts(g: GState, acts: seq<GAction>, k: nat)
    requires GInv(g) && Inv(Abs(g)) && GCanRun(g, acts, true)
    ensures Reaches(Abs(g), SimRun(g, acts, true), Abs(GRun(g, acts, true)), true)
    ensures GPuts(g, acts, k) == Puts(Abs(g), SimRun(g, acts, true), k)
    ensures GClaims(g, acts, k) == Claims(Abs(g), SimRun(g, acts, true), k)
    ensures GAcks(g, acts, k) == Acks(Abs(g), SimRun(g, acts, true), k)
    decreases acts
  {
    hide GInv, Inv, Abs, Sim, GEnabled, OneConsumer, GPut, GClaim, GAck, GApply;
    Refines(g, acts);
    if acts != [] {
      var g1 := GApply(g, acts[0]);
      GStep(g, acts[0], true);
      ReachKeeps(Abs(g), Sim(g, acts[0]), Abs(g1));
      StepCounts(g, acts[0], k);
      RunCounts(g1, acts[1..], k);
      CountsAppend(Abs(g), Sim(g, acts[0]), SimRun(g1, acts[1..], true), k);
    }
  }

  /** Each seq is claimed, put and acked at most once in any run, and not again if it already was. */
  lemma GroupAtMostOnce(g: GState, acts: seq<GAction>, k: nat)
    requires GInv(g) && Inv(Abs(g)) && GCanRun(g, acts, true)
    ensures GClaims(g, acts, k) + One(k < g.base.q.tail) <= 1
    ensures GPuts(g, acts, k) + One(HasLanded(Abs(g), k)) <= 1
    ensures GAcks(g, acts, k) + One(IsAcked(g.base.h.book, k)) <= 1
  {
    RunCounts(g, acts, k);
    AbsKeepsQueue(g);
    hide GInv, Inv, Abs, Claims, Puts, Acks;
    AtMostOnce(Abs(g), SimRun(g, acts, true), k);
  }
}
