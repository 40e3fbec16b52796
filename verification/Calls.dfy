/**
 What each call does, step by step, in terms of the fields alone: how a push, a guard and a
 `reserve` go from one point to the next, what they have done by the time they return, and
 that none of them is ever blocked but a push waiting for room.
 */
module Calls {
  import opened Base
  import opened Protocol
  import opened Invariants
  import opened Theorems

  // ---- push ----

  /** A slot is free, and so are the bytes: nothing bounds them, or the sum stays within, or the queue is empty. */
  predicate HasRoom(s: State, v: Bytes) {
    && s.q.len < s.cfg.capacity
    && (s.q.len == 0 || s.cfg.maxBytes >= USIZE_MAX || s.q.bytes + |v| <= s.cfg.maxBytes)
  }

  predicate SameStore(s: State, s': State) {
    s'.q == s.q && s'.disk == s.disk && s'.guards == s.guards && s'.calls == s.calls
  }

  /** `item` is claimed at the old `tail`, and counted. */
  predicate ClaimsAt(s: State, s': State, no: nat, item: Item) {
    && no == s.q.tail
    && s'.q == s.q.(tail := s.q.tail + 1, len := s.q.len + 1, bytes := s.q.bytes + |item.value|)
    && s'.disk == s.disk && s'.guards == s.guards && s'.calls == s.calls
  }

  /** What a push, or a woken one, meets under the lock: `a` is `Arrive(t, v, wait)`, or `Recheck(t)` with `wait`. */
  predicate Asks(s: State, a: Action, t: nat, v: Bytes, wait: bool) {
    a == Arrive(t, v, wait) || (a == Recheck(t) && wait && Lookup(s.threads, t) == Some(Woken(v)))
  }

  /**
   A push claims exactly when the queue is open and has room; it returns at once only from a
   closed queue or, when it does not wait, from one without room; otherwise it sleeps.
   */
  lemma PushDecides(s: State, a: Action, t: nat, v: Bytes, wait: bool)
    requires Enabled(s, a) && Asks(s, a, t, v, wait)
    ensures var s' := Apply(s, a); var after := Lookup(s'.threads, t);
            && (after.Some? && after.value.Claimed? <==> !s.q.closed && HasRoom(s, v))
            && (after.Some? && after.value.Claimed? ==>
                  ClaimsAt(s, s', after.value.no, after.value.item) && after.value.item.value == v)
            && (after.None? <==> s.q.closed || (!wait && !HasRoom(s, v)))
            && (after == Some(Asleep(v)) <==> !s.q.closed && wait && !HasRoom(s, v))
            && (!(after.Some? && after.value.Claimed?) ==> SameStore(s, s') && s'.h == s.h)
            && (forall u :: u != t ==> Lookup(s'.threads, u) == Lookup(s.threads, u))
  {
    AdmitsMeans(s.cfg, s.q.len, s.q.bytes, |v|);
    hide Admits;
  }

  /** How thread `t` may change in a step from `s` to `s'`. */
  ghost predicate PushGoes(s: State, s': State, t: nat) {
    var before: Option<Pc>, after: Option<Pc> := Lookup(s.threads, t), Lookup(s'.threads, t);
    match before
    case None =>
      || after.None?
      || (after.value.Asleep? && !s.q.closed && !HasRoom(s, after.value.value) && SameStore(s, s'))
      || (after.value.Claimed? && !s.q.closed && HasRoom(s, after.value.item.value)
          && ClaimsAt(s, s', after.value.no, after.value.item))
      || (after.value.Closing? && s'.q == s.q.(closed := true) && s'.disk == s.disk)
    case Some(Asleep(v)) =>
      after == Some(Asleep(v)) || (after == Some(Woken(v)) && SameButGuards(s, s'))
    case Some(Woken(v)) =>
      || after == Some(Woken(v))
      || (after == Some(Asleep(v)) && !s.q.closed && !HasRoom(s, v) && SameStore(s, s'))
      || (after.None? && s.q.closed && SameStore(s, s'))
      || (after.Some? && after.value.Claimed? && after.value.item.value == v && !s.q.closed && HasRoom(s, v)
          && ClaimsAt(s, s', after.value.no, after.value.item))
    case Some(Claimed(k, i)) =>
      || after == Some(Claimed(k, i))
      || (after == Some(Stored(k, i)) && Writes(s, s', k, i))
      || (after == Some(Failed(k, i)) && SameStore(s, s'))
    case Some(Stored(k, i)) =>
      after == Some(Stored(k, i)) || (after.None? && SameStore(s, s') && (s.cfg.durable ==> i in s'.h.promised))
    case Some(Failed(k, i)) =>
      || after == Some(Failed(k, i))
      || (after == Some(Owes(k, i)) && s'.disk == s.disk
          && s'.q == s.q.(len := s.q.len - 1, bytes := s.q.bytes - |i.value|))
    case Some(Owes(k, i)) =>
      after == Some(Owes(k, i)) || (after.None? && SameStore(s, s') && i.id in s'.h.refused)
    case Some(Closing) =>
      after == Some(Closing) || (after.None? && SameStore(s, s') && forall u :: u in s'.threads ==> !s'.threads[u].Asleep?)
  }

  /** A notification changes no counter and no entry. */
  predicate SameButGuards(s: State, s': State) {
    s'.q == s.q && s'.disk == s.disk && s'.calls == s.calls
  }

  /** Entry `k` is written, and synced when the policy is durable; otherwise the disk may have it or what it had. */
  ghost predicate Writes(s: State, s': State, k: nat, i: Item) {
    && s'.q == s.q && s'.disk.live == s.disk.live[k := i]
    && Candidates(s'.disk, k) == (if s.cfg.durable then {Some(i)} else Candidates(s.disk, k) + {Some(i)})
    && forall j: nat :: j != k ==> Candidates(s'.disk, j) == Candidates(s.disk, j)
  }

  /** Likewise for a delete under the policy for acks. */
  ghost predicate Erases(s: State, s': State, k: nat) {
    && s'.q == s.q && s'.disk.live == s.disk.live - {k}
    && Candidates(s'.disk, k) == (if s.cfg.ackDurable then {None} else Candidates(s.disk, k) + {None})
    && forall j: nat :: j != k ==> Candidates(s'.disk, j) == Candidates(s.disk, j)
  }

  /** The thread a step belongs to. */
  function Actor(a: Action): Option<nat> {
    match a
    case Arrive(t, _, _) => Some(t)
    case Recheck(t) => Some(t)
    case Commit(t, _) => Some(t)
    case Return(t) => Some(t)
    case GiveBack(t) => Some(t)
    case NotifyRoom(t, _) => Some(t)
    case Close(t) => Some(t)
    case NotifyAll(t) => Some(t)
    case Spurious(t) => Some(t)
    case _ => None
  }

  lemma PushLife(s: State, a: Action, t: nat)
    requires Enabled(s, a)
    ensures PushGoes(s, Apply(s, a), t)
    ensures Actor(a) == Some(t) && !a.Arrive? ==> Lookup(Apply(s, a).threads, t) != Lookup(s.threads, t)
    ensures Actor(a) != Some(t) ==>
              Lookup(Apply(s, a).threads, t) == Lookup(s.threads, t) || (t in s.threads && s.threads[t].Asleep?)
    ensures a == Commit(t, true) ==> Lookup(Apply(s, a).threads, t).value.Stored?
    ensures a == Commit(t, false) ==> Lookup(Apply(s, a).threads, t).value.Failed?
  {
    hide PushGoes;
    match a
    case Arrive(u, v, wait) => AskGoes(s, a, u, v, wait, t);
    case Recheck(u) => AskGoes(s, a, u, s.threads[u].value, true, t);
    case Commit(u, ok) => CommitGoes(s, u, ok, t);
    case NotifyAll(u) => NotifyAllGoes(s, u, t);
    case NotifyRoom(u, w) => WakeGoes(s, a, t);
    case NotifyAck(g, w) => WakeGoes(s, a, t);
    case Spurious(u) => WakeGoes(s, a, t);
    case _ => OtherGoes(s, a, t);
  }

  lemma AskGoes(s: State, a: Action, u: nat, v: Bytes, wait: bool, t: nat)
    requires Enabled(s, a) && Asks(s, a, u, v, wait)
    ensures PushGoes(s, Apply(s, a), t) && (a.Recheck? ==> Lookup(Apply(s, a).threads, u) != Lookup(s.threads, u))
    ensures u != t ==> Lookup(Apply(s, a).threads, t) == Lookup(s.threads, t)
  {
    PushDecides(s, a, u, v, wait);
    hide Apply, HasRoom, Enabled;
    assert u != t ==> Lookup(Apply(s, a).threads, t) == Lookup(s.threads, t);
  }

  lemma CommitGoes(s: State, u: nat, ok: bool, t: nat)
    requires Enabled(s, Commit(u, ok))
    ensures PushGoes(s, Apply(s, Commit(u, ok)), t)
    ensures u != t ==> Lookup(Apply(s, Commit(u, ok)).threads, t) == Lookup(s.threads, t)
    ensures Lookup(Apply(s, Commit(u, ok)).threads, u).Some?
    ensures var after := Lookup(Apply(s, Commit(u, ok)).threads, u).value; if ok then after.Stored? else after.Failed?
  {
    hide HasRoom, Mark;
  }

  lemma NotifyAllGoes(s: State, u: nat, t: nat)
    requires Enabled(s, NotifyAll(u))
    ensures PushGoes(s, Apply(s, NotifyAll(u)), t)
    ensures var after := Lookup(Apply(s, NotifyAll(u)).threads, t);
            u != t ==> after == Lookup(s.threads, t) || (t in s.threads && s.threads[t].Asleep?)
  {
    hide HasRoom;
  }

  lemma WakeGoes(s: State, a: Action, t: nat)
    requires Enabled(s, a) && (a.NotifyRoom? || a.NotifyAck? || a.Spurious?)
    ensures PushGoes(s, Apply(s, a), t)
    ensures var after := Lookup(Apply(s, a).threads, t);
            if Actor(a) == Some(t) then after != Lookup(s.threads, t)
            else after == Lookup(s.threads, t) || (t in s.threads && s.threads[t].Asleep?)
  {
    hide HasRoom;
  }

  lemma OtherGoes(s: State, a: Action, t: nat)
    requires Enabled(s, a)
    requires !a.Arrive? && !a.Recheck? && !a.Commit? && !a.NotifyAll? && !a.NotifyRoom? && !a.NotifyAck? && !a.Spurious?
    ensures PushGoes(s, Apply(s, a), t)
    ensures var after := Lookup(Apply(s, a).threads, t);
            if Actor(a) == Some(t) then after != Lookup(s.threads, t)
            else after == Lookup(s.threads, t) || (t in s.threads && s.threads[t].Asleep?)
  {
    hide HasRoom, Mark, LeastFrom, Jump, Put, Erase;
  }

  // ---- reserve, ack and nack ----

  predicate Freed(s: State, s': State, k: nat) {
    s'.q == s.q.(reserved := s.q.reserved - {k}) && s'.disk == s.disk
  }

  /** How guard `g` may change in a step from `s` to `s'`; it never changes seq or bytes. */
  ghost predicate GuardGoes(s: State, s': State, g: nat) {
    var before: Option<Guard>, after: Option<Guard> := Lookup(s.guards, g), Lookup(s'.guards, g);
    match before
    case None =>
      || after.None?
      || (after.value.phase == Held && after.value.no !in s.q.reserved
          && s'.q == s.q.(reserved := s.q.reserved + {after.value.no}) && s'.disk == s.disk)
    case Some(Guard(k, i, phase)) =>
      || after == before
      || match phase
         case Held => (after == Some(Guard(k, i, Acking)) && s'.q == s.q && s'.disk == s.disk) || (after.None? && Freed(s, s', k))
         case Acking =>
           (after == Some(Guard(k, i, Deleted)) && Erases(s, s', k))
           || (after == Some(Guard(k, i, Dropping)) && s'.q == s.q && s'.disk == s.disk)
         case Dropping => after.None? && Freed(s, s', k)
         case Deleted => after == Some(Guard(k, i, Settled)) && Settles(s, s', k, |i.value|)
         case Settled => after.None? && s'.q == s.q && s'.disk == s.disk
  }

  /** The counters after an ack; `head` and `ackedAbove` are left to `HeadIsExact`. */
  predicate Settles(s: State, s': State, k: nat, size: nat) {
    && s'.q == s.q.(reserved := s.q.reserved - {k}, len := s.q.len - 1, bytes := s.q.bytes - size,
                    head := s'.q.head, ackedAbove := s'.q.ackedAbove)
    && s'.disk == s.disk
  }

  lemma GuardLife(s: State, a: Action, g: nat)
    requires Enabled(s, a)
    ensures GuardGoes(s, Apply(s, a), g)
    ensures (a == BeginAck(g) || a == Release(g) || a == SettleAck(g) || (a.NotifyAck? && a.g == g)) ==>
              Lookup(Apply(s, a).guards, g) != Lookup(s.guards, g)
    ensures a == Delete(g, true) ==> g in Apply(s, a).guards && Apply(s, a).guards[g].phase == Deleted
    ensures a == Delete(g, false) ==> g in Apply(s, a).guards && Apply(s, a).guards[g].phase == Dropping
  {
    hide Admits, Mark, LeastFrom, Jump, Wakes, Wake, Rouse, Put;
    if a.Delete? {
      DeleteGoes(s, a.g, a.ok, g);
      hide Apply, GuardGoes;
    } else {
      hide Erases, Erase, Candidates;
    }
  }

  lemma DeleteGoes(s: State, h: nat, ok: bool, g: nat)
    requires Enabled(s, Delete(h, ok))
    ensures GuardGoes(s, Apply(s, Delete(h, ok)), g)
    ensures h in Apply(s, Delete(h, ok)).guards
    ensures Apply(s, Delete(h, ok)).guards[h].phase == if ok then Deleted else Dropping
  {
    hide Mark;
  }

  /** How a `reserve` may go on in a step from `s` to `s'`; `failed` when its seek returned an error. */
  ghost predicate ScanGoes(s: State, s': State, c: nat, failed: bool) {
    var before: Option<Call>, after: Option<Call> := Lookup(s.calls, c), Lookup(s'.calls, c);
    match before
    case None =>
      after.None? || (after == Some(Seeking(s.q.head, s.disk.live.Keys - s.q.reserved, 0)) && s'.q == s.q && s'.disk == s.disk)
    case Some(Seeking(cursor, avail, n)) =>
      || after == before
      || (s'.q == s.q && s'.disk == s.disk && s'.guards == s.guards
          && if after.None? then failed || forall j :: j in s.disk.live ==> j < cursor
             else after.value.Sought? && after.value.avail == avail && after.value.seeks == n + 1
                  && IsNext(s.disk.live, cursor, after.value.no, after.value.item))
    case Some(Sought(k, i, avail, n)) =>
      || after == before
      || (k in s.q.reserved && after == Some(Seeking(k + 1, avail, n)) && s'.q == s.q && s'.disk == s.disk && s'.guards == s.guards)
      || (k !in s.q.reserved && after.None? && s'.q == s.q.(reserved := s.q.reserved + {k}) && s'.disk == s.disk
          && exists g: nat :: g !in s.guards && s'.guards == s.guards[g := Guard(k, i, Held)])
  }

  /** `k` is the least seq stored from `cursor` on, and `i` what is stored there. */
  predicate IsNext(live: map<nat, Item>, cursor: nat, k: nat, i: Item) {
    Lookup(live, k) == Some(i) && cursor <= k && forall j :: j in live && cursor <= j ==> k <= j
  }

  lemma ScanLife(s: State, a: Action, c: nat)
    requires Enabled(s, a)
    ensures ScanGoes(s, Apply(s, a), c, a == Seek(c, false))
    ensures (a == BeginReserve(c) || (a.Seek? && a.c == c) || (a.Take? && a.c == c)) ==>
              Lookup(Apply(s, a).calls, c) != Lookup(s.calls, c)
  {
    hide Admits, Mark, Jump, Wakes, Wake, Rouse, Put, Erase;
    match a
    case Take(_, g) => assert g !in s.guards;
    case _ =>
  }

  // ---- what is recorded ----

  /** A push is promised when it returns Ok under a durable policy, and synced when its durable commit succeeds. */
  lemma PushRecords(s: State, a: Action)
    requires Enabled(s, a)
    ensures var h, h' := s.h, Apply(s, a).h;
            && h'.promised == h.promised + (if a.Return? && s.cfg.durable then {s.threads[a.t].item} else {})
            && h'.synced == h.synced + (if a.Commit? && a.ok && s.cfg.durable then {s.threads[a.t].item} else {})
            && h'.refused == h.refused + (if a.NotifyRoom? then {s.threads[a.t].item.id} else {})
            && h'.nextId == h.nextId + (if Apply(s, a).q.tail == s.q.tail then 0 else 1)
  {
    hide Admits, Mark, Jump, Wakes, Wake, Rouse, Put, Erase, LeastFrom;
  }

  /** A push is deleted when the delete on its guard commits, and gone when that was durable. */
  lemma DeleteRecords(s: State, a: Action)
    requires Enabled(s, a)
    ensures var h, h' := s.h, Apply(s, a).h; var now := if a.Delete? && a.ok then {s.guards[a.g].item.id} else {};
            && h'.deleted == h.deleted + now
            && h'.gone == h.gone + (if s.cfg.ackDurable then now else {})
  {
    hide Admits, Mark, Jump, Wakes, Wake, Rouse, Put, Erase, LeastFrom;
  }

  // ---- nobody is blocked ----

  /** Every thread but a sleeping one has a step to make, whatever the consumer is doing. */
  lemma ThreadGoesOn(s: State, t: nat) returns (a: Action)
    requires t in s.threads && !s.threads[t].Asleep?
    requires s.threads[t].Woken? ==> s.q.tail < U64_MAX && |s.threads[t].value| <= USIZE_MAX
    ensures Allowed(s, a, true) && Actor(a) == Some(t)
  {
    var w := SomeSleeper(s);
    match s.threads[t]
    case Woken(v) => a := Recheck(t);
    case Claimed(k, i) => a := Commit(t, true);
    case Stored(k, i) => a := Return(t);
    case Failed(k, i) => a := GiveBack(t);
    case Owes(k, i) => a := NotifyRoom(t, w);
    case Closing => a := NotifyAll(t);
  }

  lemma SomeSleeper(s: State) returns (w: Option<nat>)
    ensures Wakes(s, w)
  {
    if t :| t in s.threads && s.threads[t].Asleep? {
      w := Some(t);
    } else {
      w := None;
    }
  }

  /** A guard part-way through `ack` has a step to make. */
  lemma AckGoesOn(s: State, g: nat) returns (a: Action)
    requires g in s.guards && s.guards[g].phase != Held
    ensures Allowed(s, a, true) && (a == Delete(g, true) || a == Release(g) || a == SettleAck(g) || (a.NotifyAck? && a.g == g))
  {
    var w := SomeSleeper(s);
    match s.guards[g].phase
    case Acking => a := Delete(g, true);
    case Dropping => a := Release(g);
    case Deleted => a := SettleAck(g);
    case Settled => a := NotifyAck(g, w);
  }

  /** A `reserve` in progress has a step to make. */
  lemma ReserveGoesOn(s: State, c: nat, g: nat) returns (a: Action)
    requires c in s.calls && g !in s.guards
    ensures Allowed(s, a, true) && (a == Seek(c, true) || a == Take(c, g))
  {
    a := if s.calls[c].Seeking? then Seek(c, true) else Take(c, g);
  }

  /**
   Producers may arrive and close whatever the consumer is doing, the store may fail as well
   as succeed, and a notification may wake any sleeper; a consumer not inside an operation
   may begin any.
   */
  lemma CallsMayBegin(s: State, t: nat, v: Bytes, wait: bool)
    ensures t !in s.threads && s.q.tail < U64_MAX && |v| <= USIZE_MAX ==> Allowed(s, Arrive(t, v, wait), true)
    ensures t !in s.threads ==> Allowed(s, Close(t), true)
    ensures forall u, ok :: u in s.threads && s.threads[u].Claimed? ==> Allowed(s, Commit(u, ok), true)
    ensures forall u :: u in s.threads && s.threads[u].Asleep? ==> Allowed(s, Spurious(u), true)
    ensures forall g, ok :: g in s.guards && s.guards[g].phase == Acking ==> Allowed(s, Delete(g, ok), true)
    ensures forall c, ok :: c in s.calls && s.calls[c].Seeking? ==> Allowed(s, Seek(c, ok), true)
    ensures forall t, u :: t in s.threads && s.threads[t].Owes? && u in s.threads && s.threads[u].Asleep? ==>
              Allowed(s, NotifyRoom(t, Some(u)), true)
    ensures forall g, u :: g in s.guards && s.guards[g].phase == Settled && u in s.threads && s.threads[u].Asleep? ==>
              Allowed(s, NotifyAck(g, Some(u)), true)
    ensures s.calls == map[] && (forall g :: g in s.guards ==> s.guards[g].phase == Held) ==>
              && (forall c :: Allowed(s, BeginReserve(c), true))
              && (forall g :: g in s.guards ==> Allowed(s, BeginAck(g), true) && Allowed(s, Release(g), true))
  {
  }
}
