/** The leader's code does what the group-commit steps do, for any script of arrivals. */
module GroupScript {
  import opened Base
  import opened Protocol
  import opened Invariants
  import opened Alone
  import opened Keys
  import opened Stores
  import opened Group
  import opened GroupRefines
  import opened GroupLifts
  import L = GroupLoop
  import P = Protocol

  // ---- entries as the code has them ----

  function Waiters(es: seq<Entry>): (ws: seq<L.Waiter>)
    ensures |ws| == |es|
  {
    seq(|es|, i requires 0 <= i < |es| => (es[i].no, es[i].item.value))
  }

  lemma SameNumbers(es: seq<Entry>)
    ensures L.Numbers(Waiters(es)) == Nos(es)
    ensures L.SeqsDiffer(Waiters(es)) <==> NoDup(es)
  {
    var ws := Waiters(es);
    forall k | k in L.Numbers(ws)
      ensures k in Nos(es)
    {
      var i :| 0 <= i < |ws| && ws[i].0 == k;
      assert es[i] in es;
    }
    forall k | k in Nos(es)
      ensures k in L.Numbers(ws)
    {
      var e :| e in es && e.no == k;
      var i :| 0 <= i < |es| && es[i] == e;
      assert ws[i].0 == k;
    }
    if L.SeqsDiffer(ws) {
      forall i, j | 0 <= i < j < |es|
        ensures es[i].no != es[j].no
      {
        assert ws[i].0 != ws[j].0;
      }
    }
  }

  lemma SameOutcomes(done: map<nat, bool>, es: seq<Entry>, ok: bool)
    ensures RecordAll(done, es, ok) == L.Outcomes(done, Waiters(es), ok)
  {
    SameNumbers(es);
  }

  // ---- one batch ----

  /** The store of the code is one the step relation allows: the same entries, and on disk nothing it rules out. */
  ghost predicate Agrees(d: Disk, s: L.Shelf) {
    Models(s.live, s.synced, d) && LagHolds(d)
  }

  lemma {:induction false} PutAllLags(d: Disk, es: seq<Entry>)
    requires LagHolds(d)
    ensures LagHolds(PutAll(d, es))
    decreases es
  {
    if es != [] {
      PutAllLags(P.Put(d, es[0].no, es[0].item, true), es[1..]);
    }
  }

  lemma {:induction false} PutAllPuts(d: Disk, es: seq<Entry>)
    requires NoDup(es)
    ensures L.BatchPut(Values(d.live), Values(PutAll(d, es).live), Waiters(es))
    decreases es
  {
    if es != [] {
      var d1 := P.Put(d, es[0].no, es[0].item, true);
      var rest := es[1..];
      PutAllPuts(d1, rest);
      var e, e1, e2 := Values(d.live), Values(d1.live), Values(PutAll(d, es).live);
      SameNumbers(rest);
      SameNumbers(es);
      FirstApart(es);
      assert Waiters(es)[1..] == Waiters(rest);
      forall i | 0 <= i < |es|
        ensures Lookup(e2, Waiters(es)[i].0) == Some(Waiters(es)[i].1)
      {
        if i > 0 {
          assert Waiters(es)[i] == Waiters(rest)[i - 1];
        }
      }
      forall k: nat | k !in L.Numbers(Waiters(es))
        ensures Lookup(e2, k) == Lookup(e, k)
      {
        assert Lookup(e2, k) == Lookup(e1, k);
      }
    }
  }

  lemma FirstApart(es: seq<Entry>)
    requires es != [] && NoDup(es)
    ensures NoDup(es[1..]) && es[0].no !in Nos(es[1..]) && Nos(es) == {es[0].no} + Nos(es[1..])
  {
    var rest := es[1..];
    forall e | e in rest
      ensures e.no != es[0].no && e in es
    {
      var i :| 0 <= i < |rest| && rest[i] == e;
      assert es[i + 1] == e;
    }
    assert es[0] in es;
    forall e | e in es
      ensures e == es[0] || e in rest
    {
      var i :| 0 <= i < |es| && es[i] == e;
      assert i > 0 ==> rest[i - 1] == e;
    }
  }

  lemma PutsOnce(e: map<nat, Bytes>, a: map<nat, Bytes>, b: map<nat, Bytes>, ws: seq<L.Waiter>)
    requires L.BatchPut(e, a, ws) && L.BatchPut(e, b, ws)
    ensures a == b
  {
    forall k: nat
      ensures Lookup(a, k) == Lookup(b, k)
    {
      if k in L.Numbers(ws) {
        var i :| 0 <= i < |ws| && ws[i].0 == k;
      }
    }
    forall k: nat
      ensures k in a <==> k in b
      ensures k in a ==> a[k] == b[k]
    {
      assert Lookup(a, k) == Lookup(b, k);
    }
  }

  /** Committing a batch has the same effect on the entries, in memory and on disk. */
  lemma FlushAgrees(d: Disk, s: L.Shelf, es: seq<Entry>)
    requires Agrees(d, s) && NoDup(es) && L.InRange(Waiters(es))
    ensures Agrees(if L.Succeeds(s) then PutAll(d, es) else d, L.Flush(s, Waiters(es)))
  {
    hide Entries, ApplyOps, L.PutOps, L.BatchPut, LagHolds;
    SameNumbers(es);
    PutAllPuts(d, es);
    L.BatchEntries(s.live, Waiters(es));
    if L.Succeeds(s) {
      PutsOnce(Values(d.live), Values(PutAll(d, es).live), Entries(L.Flush(s, Waiters(es)).live), Waiters(es));
      PutAllLags(d, es);
      SyncedModels(L.Flush(s, Waiters(es)).live, PutAll(d, es));
    }
  }

  // ---- others joining ----

  /** `ts` can join, one after the other. */
  ghost predicate CanJoin(g: GState, ts: seq<nat>) {
    && (forall i :: 0 <= i < |ts| ==> CanEnter(g, ts[i]))
    && Distinct(ts)
  }

  /** The entries `ts` join with. */
  function Joining(threads: map<nat, Pc>, ts: seq<nat>): (es: seq<Entry>)
    requires forall t :: t in ts ==> t in threads && threads[t].Claimed?
    ensures |es| == |ts|
  {
    seq(|ts|, i requires 0 <= i < |ts| =>
      assert ts[i] in ts;
      Entry(ts[i], threads[ts[i]].no, threads[ts[i]].item))
  }

  lemma {:induction false} JoinAll(g: GState, ts: seq<nat>) returns (acts: seq<GAction>, g': GState)
    requires g.grp.flushing && CanJoin(g, ts)
    ensures GReaches(g, acts, g')
    ensures g'.base == g.base && g'.batches == g.batches && g'.grp.flushing && g'.grp.done == g.grp.done
    ensures g'.grp.pending == g.grp.pending + Joining(g.base.threads, ts)
    ensures forall t :: t in g'.gpc <==> t in g.gpc || t in ts
    ensures forall t :: t in g.gpc ==> g'.gpc[t] == g.gpc[t]
    decreases ts
  {
    hide GReaches;
    if ts == [] {
      NoGActs(g);
      acts, g' := [], g;
    } else {
      var t := ts[0];
      NoGActs(g);
      var g1;
      acts, g1 := GStepOn(g, [], g, Enter(t));
      var rest;
      rest, g' := JoinAll(g1, ts[1..]);
      GAppend(g, acts, g1, rest, g');
      acts := acts + rest;
      assert Joining(g.base.threads, ts) == [Entry(t, g.base.threads[t].no, g.base.threads[t].item)] + Joining(g.base.threads, ts[1..]);
      assert forall u :: u in ts <==> u == t || u in ts[1..];
    }
  }

  // ---- the whole script ----

  function Flat(arrivals: seq<seq<nat>>): seq<nat> {
    if arrivals == [] then [] else arrivals[0] + Flat(arrivals[1..])
  }

  predicate Known(threads: map<nat, Pc>, ts: seq<nat>) {
    forall t :: t in ts ==> t in threads && threads[t].Claimed? && threads[t].no <= U64_MAX
  }

  /** The script as the code is given it: the seqs and bytes that join during each commit. */
  function Script(threads: map<nat, Pc>, arrivals: seq<seq<nat>>): (ws: seq<seq<L.Waiter>>)
    requires Known(threads, Flat(arrivals))
    ensures |ws| == |arrivals|
    decreases arrivals
  {
    if arrivals == [] then []
    else [Waiters(Joining(threads, arrivals[0]))] + Script(threads, arrivals[1..])
  }

  /** `t` leads `batch`, nothing is pending, and the script's callers can join. */
  ghost predicate LeadsAlone(g: GState, t: nat, batch: seq<Entry>, arrivals: seq<seq<nat>>) {
    && Inside(g, t) && g.gpc[t] == Leading(batch)
    && g.grp.flushing && g.grp.pending == []
    && CanJoin(g, Flat(arrivals)) && Known(g.base.threads, Flat(arrivals))
    && NoDup(batch) && L.InRange(Waiters(batch))
    && (forall ts :: ts in arrivals ==> Known(g.base.threads, ts) && NoDup(Joining(g.base.threads, ts)))
  }

  /** `t`, leading `batch`, commits it, and others join meanwhile. */
  lemma FlushAndJoin(g: GState, t: nat, batch: seq<Entry>, s: L.Shelf, ts: seq<nat>) returns (acts: seq<GAction>, g': GState)
    requires Inside(g, t) && g.gpc[t] == Leading(batch) && g.grp.flushing && g.grp.pending == []
    requires CanJoin(g, ts) && NoDup(batch) && L.InRange(Waiters(batch)) && Agrees(g.base.disk, s)
    ensures GReaches(g, acts, g') && Agrees(g'.base.disk, L.Flush(s, Waiters(batch)))
    ensures g'.base.cfg == g.base.cfg && g'.base.q == g.base.q && g'.base.threads == g.base.threads
    ensures g'.grp == GroupState(Joining(g.base.threads, ts), true, g.grp.done)
    ensures Inside(g', t) && g'.gpc[t] == Recording(batch, L.Succeeds(s))
    ensures forall u :: u in g'.gpc <==> u in g.gpc || u in ts
  {
    hide GReaches, Agrees, PutAll, LandAll, SyncAll, Entries, L.Flush, NoDup;
    FlushAgrees(g.base.disk, s, batch);
    NoGActs(g);
    var ok := L.Succeeds(s);
    acts, g' := GStepOn(g, [], g, Flush(t, ok));
    assert g'.base.disk == if ok then PutAll(g.base.disk, batch) else g.base.disk;
    var g1 := g';
    assert CanJoin(g1, ts);
    var joins;
    joins, g' := JoinAll(g1, ts);
    GAppend(g, acts, g1, joins, g');
    acts := acts + joins;
  }

  /** Then it records: it leads what has joined, or collects its own outcome and leaves. */
  lemma OneRound(g: GState, t: nat, batch: seq<Entry>, s: L.Shelf, ts: seq<nat>) returns (acts: seq<GAction>, g': GState)
    requires Inside(g, t) && g.gpc[t] == Leading(batch) && g.grp.flushing && g.grp.pending == []
    requires CanJoin(g, ts) && NoDup(batch) && L.InRange(Waiters(batch)) && Agrees(g.base.disk, s)
    ensures GReaches(g, acts, g') && Agrees(g'.base.disk, L.Flush(s, Waiters(batch)))
    ensures g'.base.cfg == g.base.cfg && g'.base.q == g.base.q
    ensures var done' := L.Outcomes(g.grp.done, Waiters(batch), L.Succeeds(s)); var Claimed(k, item) := g.base.threads[t];
            if ts == [] then
              && g'.grp == GroupState([], false, done' - {k})
              && (if Lookup(done', k) == Some(true) then
                    t !in g'.gpc && g'.base.threads == g.base.threads[t := Stored(k, item)]
                  else
                    t in g'.gpc && g'.gpc[t] == Retrying && g'.base.threads == g.base.threads)
            else
              && g'.grp == GroupState([], true, done') && g'.base.threads == g.base.threads
              && t in g'.gpc && g'.gpc[t] == Leading(Joining(g.base.threads, ts))
              && (forall u :: u in g'.gpc <==> u in g.gpc || u in ts)
  {
    hide GReaches, Agrees, RecordAll, L.Outcomes, L.Flush, NoDup, CanEnter;
    SameOutcomes(g.grp.done, batch, L.Succeeds(s));
    acts, g' := FlushAndJoin(g, t, batch, s, ts);
    acts, g' := GStepOn(g, acts, g', Record(t));
  }

  lemma HeadOfScript(g: GState, ts: seq<nat>, rest: seq<seq<nat>>)
    requires CanJoin(g, ts + Flat(rest)) && Known(g.base.threads, ts + Flat(rest))
    ensures CanJoin(g, ts) && Known(g.base.threads, ts) && Known(g.base.threads, Flat(rest))
  {
    var all := ts + Flat(rest);
    forall i | 0 <= i < |ts|
      ensures CanEnter(g, ts[i])
    {
      assert all[i] == ts[i];
    }
    forall i, j | 0 <= i < j < |ts|
      ensures ts[i] != ts[j]
    {
      assert all[i] == ts[i] && all[j] == ts[j];
    }
    assert forall u :: u in Flat(rest) || u in ts ==> u in all;
  }

  /** Who can join after `ts` still can once some of `ts` are inside. */
  lemma RestOfScript(g: GState, g': GState, ts: seq<nat>, later: seq<nat>)
    requires CanJoin(g, ts + later) && g'.base.cfg == g.base.cfg && g'.base.threads == g.base.threads
    requires forall u :: u in g'.gpc ==> u in g.gpc || u in ts
    ensures CanJoin(g', later)
  {
    var all := ts + later;
    forall j | 0 <= j < |later|
      ensures CanEnter(g', later[j])
    {
      assert all[|ts| + j] == later[j];
      forall i | 0 <= i < |ts|
        ensures ts[i] != later[j]
      {
        assert all[i] == ts[i];
      }
    }
    forall i, j | 0 <= i < j < |later|
      ensures later[i] != later[j]
    {
      assert all[|ts| + i] == later[i] && all[|ts| + j] == later[j];
    }
  }

  lemma InRangeJoining(threads: map<nat, Pc>, ts: seq<nat>)
    requires Known(threads, ts)
    ensures L.InRange(Waiters(Joining(threads, ts)))
  {
    forall i | 0 <= i < |ts|
      ensures Waiters(Joining(threads, ts))[i].0 <= U64_MAX
    {
      assert ts[i] in ts;
    }
  }

  lemma {:induction false} ScriptInRange(threads: map<nat, Pc>, arrivals: seq<seq<nat>>)
    requires Known(threads, Flat(arrivals))
    ensures L.AllInRange(Script(threads, arrivals))
    decreases arrivals
  {
    if arrivals != [] {
      InRangeJoining(threads, arrivals[0]);
      ScriptInRange(threads, arrivals[1..]);
    }
  }

  /**
   For any script, the leader's steps end where the leader's code does: the same entries, the
   same recorded outcomes, and its own collected, so that it returns or is about to retry.
   */
  lemma {:induction false} Conducts(g: GState, t: nat, batch: seq<Entry>, s: L.Shelf, arrivals: seq<seq<nat>>)
    returns (acts: seq<GAction>, g': GState)
    requires LeadsAlone(g, t, batch, arrivals) && Agrees(g.base.disk, s)
    ensures GReaches(g, acts, g') && L.AllInRange(Script(g.base.threads, arrivals))
    ensures var (s', done') := L.Lead(s, g.grp.done, Waiters(batch), Script(g.base.threads, arrivals));
            var Claimed(k, item) := g.base.threads[t];
            && Agrees(g'.base.disk, s')
            && g'.grp == GroupState([], false, done' - {k}) && g'.base.q == g.base.q && g'.base.cfg == g.base.cfg
            && (if Lookup(done', k) == Some(true) then
                  t !in g'.gpc && g'.base.threads == g.base.threads[t := Stored(k, item)]
                else
                  t in g'.gpc && g'.gpc[t] == Retrying && g'.base.threads == g.base.threads)
    decreases |arrivals|
  {
    hide GReaches, Agrees, Entries, L.Outcomes, L.Flush, NoDup, L.InRange;
    var threads, script := g.base.threads, Script(g.base.threads, arrivals);
    ScriptInRange(threads, arrivals);
    var ts := if arrivals == [] then [] else arrivals[0];
    var rest := if arrivals == [] then [] else arrivals[1..];
    assert Flat(arrivals) == ts + Flat(rest);
    assert L.Next(script) == Waiters(Joining(threads, ts)) && L.Rest(script) == Script(threads, rest);
    HeadOfScript(g, ts, rest);
    var ws := Waiters(batch);
    L.LeadStep(s, g.grp.done, ws, script);
    acts, g' := OneRound(g, t, batch, s, ts);
    if ts != [] {
      RestOfScript(g, g', ts, Flat(rest));
      var next := Joining(threads, ts);
      assert ts == arrivals[0] && ts in arrivals && forall us :: us in rest ==> us in arrivals;
      InRangeJoining(threads, ts);
      var g1, first := g', acts;
      var more;
      more, g' := Conducts(g1, t, next, L.Flush(s, ws), rest);
      GAppend(g, first, g1, more, g');
      acts := first + more;
    }
  }

  /**
   A whole `group_commit` by the caller that leads, the code against the steps: the same
   entries, the same outcomes left for the others, and the same result; and the code's disk
   holds only what the steps allow, so what they have synced it has synced.
   */
  lemma CodeIsSteps(base: State, t: nat, s: L.Shelf, arrivals: seq<seq<nat>>, n: nat)
    returns (acts: seq<GAction>, g': GState)
    requires CanEnter(Idle(base, n), t) && base.threads[t].no <= U64_MAX && base.cfg.durable
    requires CanJoin(Idle(base, n), [t] + Flat(arrivals)) && Known(base.threads, Flat(arrivals))
    requires Inv(base) && Agrees(base.disk, s)
    ensures GReaches(Idle(base, n), acts, g') && L.AllInRange(Script(base.threads, arrivals))
    ensures var Claimed(k, item) := base.threads[t];
            var (shelf, outcomes) := L.Lead(s, map[], [(k, item.value)], Script(base.threads, arrivals));
            var stored := Lookup(outcomes, k) == Some(true) || L.Succeeds(shelf);
            && Agrees(g'.base.disk, if Lookup(outcomes, k) == Some(true) then shelf else L.Flush(shelf, [(k, item.value)]))
            && g'.grp == GroupState([], false, outcomes - {k})
            && g'.base.threads == base.threads[t := if stored then Stored(k, item) else Failed(k, item)]
  {
    hide GReaches, Agrees, Entries, L.Outcomes, L.Flush, L.Lead, Script, Inv;
    var g0, g1 := Idle(base, n), Idle(base, n);
    var Claimed(k, item) := base.threads[t];
    var e := Entry(t, k, item);
    NoGActs(g0);
    acts, g1 := GStepOn(g0, [], g0, Enter(t));
    assert [] + [e] == [e];
    RestOfScript(g0, g1, [t], Flat(arrivals));
    forall ts | ts in arrivals
      ensures Known(base.threads, ts) && NoDup(Joining(base.threads, ts))
    {
      PartOfScript(g1, arrivals, ts);
      JoiningDistinct(base, ts);
    }
    assert Waiters([e]) == [(k, item.value)];
    var more, g2;
    more, g2 := Conducts(g1, t, [e], s, arrivals);
    GAppend(g0, acts, g1, more, g2);
    acts, g' := acts + more, g2;
    var (shelf, outcomes) := L.Lead(s, map[], [(k, item.value)], Script(base.threads, arrivals));
    if Lookup(outcomes, k) != Some(true) {
      acts, g' := RetryAlone(g0, acts, g2, t, shelf);
    }
  }

  /** Callers hold distinct seqs. */
  lemma JoiningDistinct(s: State, ts: seq<nat>)
    requires Inv(s) && Known(s.threads, ts) && Distinct(ts)
    ensures NoDup(Joining(s.threads, ts))
  {
    hide Inv;
    forall i, j | 0 <= i < j < |ts|
      ensures s.threads[ts[i]].no != s.threads[ts[j]].no
    {
      assert ts[i] in ts && ts[j] in ts;
      OwnerKnown(s, ts[i]);
      OwnerKnown(s, ts[j]);
    }
  }

  lemma {:induction false} PartOfScript(g: GState, arrivals: seq<seq<nat>>, ts: seq<nat>)
    requires CanJoin(g, Flat(arrivals)) && Known(g.base.threads, Flat(arrivals)) && ts in arrivals
    ensures CanJoin(g, ts) && Known(g.base.threads, ts)
    decreases arrivals
  {
    HeadOfScript(g, arrivals[0], arrivals[1..]);
    if ts != arrivals[0] {
      RestOfScript(g, g, arrivals[0], Flat(arrivals[1..]));
      PartOfScript(g, arrivals[1..], ts);
    }
  }

  lemma RetryAlone(g0: GState, acts0: seq<GAction>, g: GState, t: nat, s: L.Shelf)
    returns (acts: seq<GAction>, g': GState)
    requires GReaches(g0, acts0, g) && Inside(g, t) && g.gpc[t].Retrying?
    requires g.base.cfg.durable && g.base.threads[t].no <= U64_MAX && Agrees(g.base.disk, s)
    ensures GReaches(g0, acts, g') && g'.grp == g.grp
    ensures var Claimed(k, item) := g.base.threads[t];
            && Agrees(g'.base.disk, L.Flush(s, [(k, item.value)]))
            && g'.base.threads == g.base.threads[t := if L.Succeeds(s) then Stored(k, item) else Failed(k, item)]
  {
    hide GReaches, Agrees, Entries, L.Flush;
    var Claimed(k, item) := g.base.threads[t];
    var es := [Entry(t, k, item)];
    assert Waiters(es) == [(k, item.value)] && es[1..] == [];
    assert PutAll(g.base.disk, es) == P.Put(g.base.disk, k, item, true);
    FlushAgrees(g.base.disk, s, es);
    acts, g' := GStepOn(g0, acts0, g, Retry(t, L.Succeeds(s)));
  }
}
