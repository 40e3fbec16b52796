/** No producer is left asleep on `room` while it could go on, for any number of threads. */
module Wakeups {
  import opened Base
  import opened Protocol
  import opened Invariants
  import opened Theorems

  // ---- the count of wakes delivered or owed ----

  /** Threads woken and yet to re-check, or owing a notification after a failed write. */
  function Awake(threads: map<nat, Pc>): set<nat> {
    set t | t in threads && (threads[t].Woken? || threads[t].Owes?)
  }

  /** Acks settled whose notification is still owed. */
  function Settling(guards: map<nat, Guard>): set<nat> {
    set g | g in guards && guards[g].phase == Settled
  }

  function Credit(s: State): nat {
    |Awake(s.threads)| + |Settling(s.guards)|
  }

  predicate SomeoneSleeps(threads: map<nat, Pc>) {
    exists t :: t in threads && threads[t].Asleep?
  }

  predicate SomeoneCloses(threads: map<nat, Pc>) {
    exists t :: t in threads && threads[t].Closing?
  }

  /** A closed queue with a sleeper still owes close's `notify_all`, and only a closed one does. */
  ghost predicate CloseInv(s: State) {
    && (s.q.closed && SomeoneSleeps(s.threads) ==> SomeoneCloses(s.threads))
    && (SomeoneCloses(s.threads) ==> s.q.closed)
  }

  /** With only the item bound: free slots never outnumber the wakes delivered or owed. */
  ghost predicate RoomInv(s: State) {
    !s.q.closed && SomeoneSleeps(s.threads) ==> s.cfg.capacity - s.q.len <= Credit(s)
  }

  /** Whatever the byte bound: an empty queue with a sleeper has a wake delivered or owed. */
  ghost predicate EmptyInv(s: State) {
    !s.q.closed && SomeoneSleeps(s.threads) && s.q.len <= 0 ==> Credit(s) > 0
  }

  predicate ByCountOnly(cfg: Config) {
    cfg.maxBytes >= USIZE_MAX
  }

  lemma AdmitsByCount(cfg: Config, len: int, bytes: int, v: nat)
    requires ByCountOnly(cfg)
    ensures Admits(cfg, len, bytes, v) <==> len < cfg.capacity
  {
  }

  predicate Wakeful(pc: Pc) { pc.Woken? || pc.Owes? }

  lemma AwakeMoves(threads: map<nat, Pc>, t: nat, pc: Pc)
    ensures var was := One(t in threads && Wakeful(threads[t]));
            && |Awake(threads[t := pc])| == |Awake(threads)| - was + One(Wakeful(pc))
            && |Awake(threads - {t})| == |Awake(threads)| - was
  {
    SizesDiffer(Awake(threads), Awake(threads[t := pc]), t);
    SizesDiffer(Awake(threads), Awake(threads - {t}), t);
  }

  lemma SettlingMoves(guards: map<nat, Guard>, g: nat, guard: Guard)
    ensures var was := One(g in guards && guards[g].phase == Settled);
            && |Settling(guards[g := guard])| == |Settling(guards)| - was + One(guard.phase == Settled)
            && |Settling(guards - {g})| == |Settling(guards)| - was
  {
    SizesDiffer(Settling(guards), Settling(guards[g := guard]), g);
    SizesDiffer(Settling(guards), Settling(guards - {g}), g);
  }

  // ---- each kind of step ----

  /** The part of the state the wakeup argument looks at. */
  ghost predicate WakeInv(s: State) {
    CloseInv(s) && EmptyInv(s) && (ByCountOnly(s.cfg) ==> RoomInv(s))
  }

  lemma SleepersMove(threads: map<nat, Pc>, t: nat, pc: Pc)
    ensures SomeoneSleeps(threads - {t}) ==> SomeoneSleeps(threads)
    ensures SomeoneSleeps(threads[t := pc]) ==> SomeoneSleeps(threads) || pc.Asleep?
    ensures SomeoneSleeps(threads) && !(t in threads && threads[t].Asleep?) ==> SomeoneSleeps(threads[t := pc])
    ensures SomeoneCloses(threads - {t}) ==> SomeoneCloses(threads)
    ensures SomeoneCloses(threads[t := pc]) ==> SomeoneCloses(threads) || pc.Closing?
    ensures SomeoneCloses(threads) && !(t in threads && threads[t].Closing?) ==>
              SomeoneCloses(threads[t := pc]) && SomeoneCloses(threads - {t})
    ensures pc.Closing? ==> SomeoneCloses(threads[t := pc])
  {
    if x :| x in threads && threads[x].Asleep? {
      assert x != t ==> x in threads[t := pc] && threads[t := pc][x].Asleep?;
    }
    if x :| x in threads && threads[x].Closing? {
      assert x != t ==> x in threads[t := pc] && threads[t := pc][x].Closing?;
      assert x != t ==> x in threads - {t} && (threads - {t})[x].Closing?;
    }
    if pc.Closing? {
      assert t in threads[t := pc] && threads[t := pc][t].Closing?;
    }
  }

  lemma TryWakes(s: State, t: nat, v: Bytes, wait: bool)
    requires WakeInv(s) && s.cfg.capacity > 0 && s.q.len >= 0 && (t in s.threads ==> s.threads[t].Woken?)
    ensures WakeInv(Try(s, t, v, wait))
  {
    AwakeMoves(s.threads, t, Asleep(v));
    SleepersMove(s.threads, t, Asleep(v));
    var claimed := Claimed(s.q.tail, Item(s.h.nextId, v));
    AwakeMoves(s.threads, t, claimed);
    SleepersMove(s.threads, t, claimed);
    hide Awake, Settling, SomeoneSleeps, SomeoneCloses;
  }

  /** Waking `w` out of `threads` hands one owed wake to a sleeper, if there is one. */
  lemma WakeMoves(threads: map<nat, Pc>, w: Option<nat>)
    requires w.Some? ==> w.value in threads && threads[w.value].Asleep?
    requires w.None? ==> !SomeoneSleeps(threads)
    ensures SomeoneSleeps(Wake(threads, w)) ==> SomeoneSleeps(threads) && |Awake(Wake(threads, w))| == |Awake(threads)| + 1
    ensures SomeoneCloses(Wake(threads, w)) == SomeoneCloses(threads)
  {
    if w.Some? {
      AwakeMoves(threads, w.value, Woken(threads[w.value].value));
      SleepersMove(threads, w.value, Woken(threads[w.value].value));
    }
  }

  lemma NotifyRoomWakes(s: State, t: nat, w: Option<nat>)
    requires WakeInv(s) && Enabled(s, NotifyRoom(t, w))
    ensures WakeInv(Apply(s, NotifyRoom(t, w)))
  {
    var rest := s.threads - {t};
    AwakeMoves(s.threads, t, s.threads[t]);
    SleepersMove(s.threads, t, s.threads[t]);
    WakeMoves(rest, w);
    hide Awake, Settling, SomeoneSleeps, SomeoneCloses;
  }

  lemma NotifyAckWakes(s: State, g: nat, w: Option<nat>)
    requires WakeInv(s) && Enabled(s, NotifyAck(g, w))
    ensures WakeInv(Apply(s, NotifyAck(g, w)))
  {
    SettlingMoves(s.guards, g, s.guards[g]);
    WakeMoves(s.threads, w);
    hide Awake, Settling, SomeoneSleeps, SomeoneCloses;
  }

  lemma NotifyAllWakes(s: State, t: nat)
    requires WakeInv(s) && Enabled(s, NotifyAll(t))
    ensures WakeInv(Apply(s, NotifyAll(t)))
  {
    assert SomeoneCloses(s.threads);
    assert !SomeoneSleeps(Rouse(s.threads - {t}));
  }

  lemma SpuriousWakes(s: State, t: nat)
    requires WakeInv(s) && Enabled(s, Spurious(t))
    ensures WakeInv(Apply(s, Spurious(t)))
  {
    WakeMoves(s.threads, Some(t));
    hide Awake, Settling, SomeoneSleeps, SomeoneCloses;
  }

  lemma CloseWakes(s: State, t: nat)
    requires WakeInv(s) && Enabled(s, Close(t))
    ensures WakeInv(Apply(s, Close(t)))
  {
    SleepersMove(s.threads, t, Closing);
    hide Awake, Settling, SomeoneSleeps, SomeoneCloses;
  }

  lemma ThreadWakes(s: State, a: Action)
    requires WakeInv(s) && Enabled(s, a) && (a.Commit? || a.Return? || a.GiveBack?)
    ensures WakeInv(Apply(s, a))
  {
    var s' := Apply(s, a);
    var pc := if a.Return? then s.threads[a.t] else s'.threads[a.t];
    AwakeMoves(s.threads, a.t, pc);
    SleepersMove(s.threads, a.t, pc);
    hide Awake, Settling, SomeoneSleeps, SomeoneCloses;
  }

  lemma ConsumerWakes(s: State, a: Action)
    requires WakeInv(s) && Enabled(s, a)
    requires a.BeginReserve? || a.Seek? || a.Take? || a.BeginAck? || a.Delete? || a.Release? || a.SettleAck?
    ensures WakeInv(Apply(s, a))
  {
    var s' := Apply(s, a);
    if !a.BeginReserve? && !a.Seek? {
      SettlingMoves(s.guards, a.g, if a.g in s'.guards then s'.guards[a.g] else Guard(0, Item(0, []), Held));
    }
    hide Awake, Settling, SomeoneSleeps, SomeoneCloses;
  }

  lemma WakeStep(s: State, a: Action)
    requires WakeInv(s) && Enabled(s, a) && s.cfg.capacity > 0 && s.q.len >= 0
    ensures WakeInv(Apply(s, a)) && Apply(s, a).cfg == s.cfg
  {
    hide WakeInv;
    match a
    case Arrive(t, v, wait) => TryWakes(s, t, v, wait);
    case Recheck(t) => TryWakes(s, t, s.threads[t].value, true);
    case NotifyRoom(t, w) => NotifyRoomWakes(s, t, w);
    case NotifyAck(g, w) => NotifyAckWakes(s, g, w);
    case NotifyAll(t) => NotifyAllWakes(s, t);
    case Spurious(t) => SpuriousWakes(s, t);
    case Close(t) => CloseWakes(s, t);
    case Commit(_, _) => ThreadWakes(s, a);
    case Return(_) => ThreadWakes(s, a);
    case GiveBack(_) => ThreadWakes(s, a);
    case _ => ConsumerWakes(s, a);
  }

  /** No wakeup is lost in any run, however many producers take part. */
  lemma {:induction false} WakeRun(s: State, acts: seq<Action>)
    requires WakeInv(s) && Inv(s) && s.cfg.capacity > 0 && CanRun(s, acts, true)
    ensures WakeInv(Run(s, acts, true)) && Run(s, acts, true).cfg == s.cfg
    decreases acts
  {
    hide WakeInv, Inv;
    if acts != [] {
      NoUnderflow(s);
      WakeStep(s, acts[0]);
      StepKeeps(s, acts[0]);
      WakeRun(Apply(s, acts[0]), acts[1..]);
    }
  }

  // ---- what that means, and where it stops ----

  /** Some sleeper's value would be admitted now, and no wake is delivered or owed. */
  predicate Stranded(s: State) {
    && !s.q.closed && Credit(s) == 0
    && exists t :: t in s.threads && s.threads[t].Asleep?
                   && Admits(s.cfg, s.q.len, s.q.bytes, |s.threads[t].value|)
  }

  lemma NotStranded(s: State)
    requires WakeInv(s) && Inv(s) && (ByCountOnly(s.cfg) || s.cfg.capacity == 1)
    ensures !Stranded(s)
  {
    NoUnderflow(s);
    hide Inv;
    if t :| t in s.threads && s.threads[t].Asleep? && Admits(s.cfg, s.q.len, s.q.bytes, |s.threads[t].value|) {
      assert SomeoneSleeps(s.threads);
    }
  }

  ghost predicate NeverStrands(cfg: Config) {
    forall acts :: CanRun(Fresh(cfg), acts, true) ==> !Stranded(Run(Fresh(cfg), acts, true))
  }

  /** A queue opened on an empty store. */
  function Fresh(cfg: Config): State {
    Open(cfg, Disk(map[], map[]), NoHistory())
  }

  function Filler(n: nat): Bytes {
    seq(n, _ => 0)
  }
}
