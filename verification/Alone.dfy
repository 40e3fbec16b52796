/** Whole calls with no step of another thread between theirs, as runs. */
module Alone {
  import opened Base
  import opened Protocol
  import opened Invariants

  lemma NoActs(s: State, serial: bool)
    ensures Reaches(s, [], s, serial)
  {
  }

  /** An admitted push claims. */
  lemma ClaimAlone(s0: State, acts0: seq<Action>, s: State, t: nat, v: Bytes, serial: bool) returns (acts: seq<Action>)
    requires Reaches(s0, acts0, s, serial) && t !in s.threads && CanClaim(s, v)
    requires !s.q.closed && Admits(s.cfg, s.q.len, s.q.bytes, |v|)
    ensures Reaches(s0, acts, Claim(s, t, v), serial)
  {
    hide Reaches;
    Extend(s0, acts0, s, Arrive(t, v, true), serial);
    acts := acts0 + [Arrive(t, v, true)];
  }

  /** A push that does not fit sleeps. */
  lemma SleepAlone(s0: State, acts0: seq<Action>, s: State, t: nat, v: Bytes, serial: bool) returns (acts: seq<Action>)
    requires Reaches(s0, acts0, s, serial) && t !in s.threads && CanClaim(s, v)
    requires !s.q.closed && !Admits(s.cfg, s.q.len, s.q.bytes, |v|)
    ensures Reaches(s0, acts, s.(threads := s.threads[t := Asleep(v)]), serial)
  {
    hide Reaches;
    Extend(s0, acts0, s, Arrive(t, v, true), serial);
    acts := acts0 + [Arrive(t, v, true)];
  }

  /** The state after a `reserve` that hands out `k` as guard `g`. */
  function HandOut(s: State, g: nat, k: nat): State
    requires k in s.disk.live
  {
    s.(q := s.q.(reserved := s.q.reserved + {k}), guards := s.guards[g := Guard(k, s.disk.live[k], Held)])
  }

  /** The state after the scan of call `c` ends. */
  function AfterScan(s: State, c: nat, g: nat, cursor: nat): State {
    var s' := s.(calls := s.calls - {c});
    var found := LeastFrom(Reservable(s), cursor);
    if found.Some? then HandOut(s', g, found.value) else s'
  }

  lemma SeekAlone(s: State, c: nat, serial: bool)
    requires c in s.calls && s.calls[c].Seeking?
    ensures Reaches(s, [Seek(c, true)], DoSeek(s, c, true), serial)
  {
    NoActs(s, serial);
    Extend(s, [], s, Seek(c, true), serial);
    assert [] + [Seek(c, true)] == [Seek(c, true)];
  }

  lemma ProbeAlone(s: State, c: nat, g: nat, serial: bool)
    requires c in s.calls && s.calls[c].Seeking? && g !in s.guards
    requires LeastFrom(s.disk.live.Keys, s.calls[c].cursor).Some?
    ensures Reaches(s, [Seek(c, true)] + [Take(c, g)], DoTake(DoSeek(s, c, true), c, g), serial)
  {
    SeekAlone(s, c, serial);
    Extend(s, [Seek(c, true)], DoSeek(s, c, true), Take(c, g), serial);
  }

  /** The scan loop of `reserve` alone stops at the least unreserved entry from its cursor on. */
  lemma {:induction false} ScanAlone(s: State, c: nat, g: nat, serial: bool) returns (acts: seq<Action>)
    requires c in s.calls && s.calls[c].Seeking? && g !in s.guards
    ensures Reaches(s, acts, AfterScan(s, c, g, s.calls[c].cursor), serial) && NoneFails(acts)
    decreases |Ahead(s.q.reserved, s.calls[c].cursor)|
  {
    hide Reaches, Apply;
    var Seeking(cursor, avail, seeks) := s.calls[c];
    var first := LeastFrom(s.disk.live.Keys, cursor);
    if first == None {
      SeekAlone(s, c, serial);
      acts := [Seek(c, true)];
      LeastNone(Reservable(s), cursor);
    } else {
      var k := first.value;
      ProbeAlone(s, c, g, serial);
      acts := [Seek(c, true)] + [Take(c, g)];
      var s1 := DoSeek(s, c, true);
      var s2 := DoTake(s1, c, g);
      if k in s.q.reserved {
        AheadShrinks(s.q.reserved, k);
        AheadFurther(s.q.reserved, cursor, k);
        SkipReserved(s, cursor, k);
        assert s2.calls == s.calls[c := Seeking(k + 1, avail, seeks + 1)];
        assert s2.calls - {c} == s.calls - {c};
        var more := ScanAlone(s2, c, g, serial);
        Join(s, acts, s2, more, AfterScan(s2, c, g, k + 1), serial);
        acts := acts + more;
      } else {
        LeastIs(Reservable(s), cursor, k);
        assert s1.calls - {c} == s.calls - {c};
      }
    }
  }

  lemma SkipReserved(s: State, cursor: nat, k: nat)
    requires LeastFrom(s.disk.live.Keys, cursor) == Some(k) && k in s.q.reserved
    ensures LeastFrom(Reservable(s), k + 1) == LeastFrom(Reservable(s), cursor)
  {
    var next := LeastFrom(Reservable(s), k + 1);
    assert forall q :: q in Reservable(s) && cursor <= q ==> k + 1 <= q;
    if next.Some? {
      LeastIs(Reservable(s), cursor, next.value);
    } else {
      LeastNone(Reservable(s), cursor);
    }
  }

  lemma Join(s: State, a: seq<Action>, s1: State, b: seq<Action>, s2: State, serial: bool)
    requires Reaches(s, a, s1, serial) && Reaches(s1, b, s2, serial)
    ensures Reaches(s, a + b, s2, serial)
  {
    RunAppend(s, a, b, serial);
  }

  /** A whole `reserve` alone hands out the least unreserved entry of the store, or nothing when there is none. */
  lemma ReserveAlone(s: State, c: nat, g: nat) returns (acts: seq<Action>)
    requires Inv(s) && ConsumerIdle(s) && g !in s.guards
    ensures Reaches(s, acts, AfterScan(s, c, g, 0), true) && NoneFails(acts)
  {
    var s1 := Apply(s, BeginReserve(c));
    var first := [BeginReserve(c)];
    NoActs(s, true);
    Extend(s, [], s, BeginReserve(c), true);
    assert [] + first == first;
    var more := ScanAlone(s1, c, g, true);
    assert s1.calls - {c} == s.calls;
    assert s.calls - {c} == s.calls;
    Join(s, first, s1, more, AfterScan(s1, c, g, s.q.head), true);
    acts := first + more;
    HeadBelow(s);
  }

  /** Nothing reservable lies below `head`, so scanning from it is scanning from 0. */
  lemma HeadBelow(s: State)
    requires Inv(s)
    ensures LeastFrom(Reservable(s), s.q.head) == LeastFrom(Reservable(s), 0)
  {
    hide ThreadsMatch, GuardsMatch, Exclusive, Serial, Scans;
    var found := LeastFrom(Reservable(s), s.q.head);
    forall k | k in Reservable(s)
      ensures s.q.head <= k
    {
      assert !IsAcked(s.h.book, k);
    }
    if found.Some? {
      LeastIs(Reservable(s), 0, found.value);
    } else {
      LeastNone(Reservable(s), 0);
    }
  }

  /** A whole successful `ack` alone, up to the notification it still owes. */
  lemma AckAlone(s0: State, acts0: seq<Action>, s: State, g: nat, serial: bool) returns (acts: seq<Action>, s': State)
    requires Reaches(s0, acts0, s, serial) && g in s.guards && s.guards[g].phase == Held
    requires serial ==> ConsumerIdle(s)
    ensures Reaches(s0, acts, s', serial) && (NoneFails(acts0) ==> NoneFails(acts))
    ensures var Guard(k, item, _) := s.guards[g];
            && s'.q == AfterAck(s.q, k, |item.value|)
            && s'.disk == Erase(s.disk, k, s.cfg.ackDurable)
            && s'.guards == s.guards[g := Guard(k, item, Settled)]
            && s'.threads == s.threads && s'.calls == s.calls && s'.cfg == s.cfg
  {
    hide Reaches, AfterAck, Erase, Mark;
    var a1, a2, a3 := BeginAck(g), Delete(g, true), SettleAck(g);
    Extend(s0, acts0, s, a1, serial);
    var s1 := Apply(s, a1);
    Extend(s0, acts0 + [a1], s1, a2, serial);
    var s2 := DoDelete(s1, g, true);
    Extend(s0, acts0 + [a1] + [a2], s2, a3, serial);
    acts, s' := acts0 + [a1] + [a2] + [a3], DoSettleAck(s2, g);
  }
}
