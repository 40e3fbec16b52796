/** What the async facade's futures return, with or without store failures, and that none is ever blocked but by its await. */
module AsyncAnswers {
  import opened Base
  import opened Protocol
  import opened Invariants
  import opened Theorems
  import opened Calls
  import opened Notify
  import opened AsyncFacade
  import opened AsyncTheorems

  /** The bytes of this session's seq `no` are `value`, and its entry has been stored. */
  predicate WasStored(book: map<nat, Life>, no: nat, value: Bytes) {
    no in book && book[no].item.value == value && Landed(book[no].stage)
  }

  /** Seq `no` carried `value`; its commit failed and its slot was given back. */
  predicate WasRefused(book: map<nat, Life>, no: nat, value: Bytes) {
    no in book && book[no].item.value == value && book[no].stage.Void?
  }

  /** The push carries the future's own bytes. */
  predicate Carries(threads: map<nat, Pc>, t: nat, value: Bytes) {
    t in threads && (threads[t].Claimed? || threads[t].Stored? || threads[t].Failed? || threads[t].Owes?)
    && threads[t].item.value == value
  }

  /** What must hold for a push future to be where it is, above all for the reply it is about to return. */
  predicate Justified(base: State, t: nat, k: Future) {
    match k.at
    case InCall => Carries(base.threads, t, k.value)
    case Pushed(no) => WasStored(base.h.book, no, k.value)
    case Waiting => k.wait
    case Leaving(reply) =>
      (match reply
       case Accepted(no) => WasStored(base.h.book, no, k.value)
       case StoreError(no) => WasRefused(base.h.book, no, k.value)
       case Shut => base.q.closed
       case NoRoom => !k.wait)
    case _ => true
  }

  /** A thread in the queue belongs to a future inside `try_push`, or is a close. */
  ghost predicate Housed(threads: map<nat, Pc>, futures: map<nat, Future>) {
    forall t :: t in threads ==> if t in futures then futures[t].at.InCall? else threads[t].Closing?
  }

  /** A reserve about to return nothing has found the queue closed and empty. */
  predicate ReserveJustified(s: Async) {
    s.reserver == Departing(Nothing) ==> s.base.q.closed && s.base.q.len == 0 && s.base.disk.live == map[]
  }

  ghost predicate Answered(s: Async) {
    && (forall t :: t in s.futures ==> Justified(s.base, t, s.futures[t]))
    && Housed(s.base.threads, s.futures)
    && ReserveJustified(s)
  }

  // ---- the queue's steps leave what justifies a reply ----

  lemma StaysStored(base: State, b: Action, no: nat, value: Bytes)
    requires Inv(base) && Enabled(base, b)
    ensures WasStored(base.h.book, no, value) ==> WasStored(Apply(base, b).h.book, no, value)
    ensures WasRefused(base.h.book, no, value) ==> WasRefused(Apply(base, b).h.book, no, value)
  {
    OneWay(base, b, no);
    hide Inv, Apply;
  }

  /** A future whose thread does not leave the queue in this step stays justified. */
  lemma StaysJustified(base: State, b: Action, t: nat, k: Future)
    requires Inv(base) && Enabled(base, b) && Justified(base, t, k)
    requires b != Return(t) && !(b.NotifyRoom? && b.t == t)
    ensures Justified(Apply(base, b), t, k)
  {
    hide Inv, Apply, Enabled, WasStored, WasRefused, HasRoom, Writes;
    match k.at
    case InCall =>
      PushLife(base, b, t);
      if base.threads[t].Stored? || base.threads[t].Owes? {
        LeavesOnly(base, b, t);
      }
    case Pushed(no) => StaysStored(base, b, no, k.value);
    case Leaving(reply) =>
      CountersMove(base, b);
      if reply.Accepted? || reply.StoreError? {
        StaysStored(base, b, reply.no, k.value);
      }
    case _ =>
  }

  /** Only its own `Return` or `NotifyRoom` takes a claimed push out of the queue. */
  lemma LeavesOnly(s: State, b: Action, t: nat)
    requires Enabled(s, b) && t in s.threads && (s.threads[t].Stored? || s.threads[t].Owes?)
    ensures t !in Apply(s, b).threads ==> b == Return(t) || (b.NotifyRoom? && b.t == t)
  {
    PushLife(s, b, t);
    hide Apply, HasRoom, Writes;
  }

  // ---- every step ----

  /** Whether `a` is a step of future `t` itself. */
  predicate OfFuture(a: AAction, t: nat) {
    OfPush(a) && a.t == t
  }

  lemma OthersStay(s: Async, a: AAction, faulty: bool, t: nat)
    requires AEnabled(s, a, faulty) && t in s.futures && !OfFuture(a, t)
    ensures t in AApply(s, a, faulty).futures && AApply(s, a, faulty).futures[t] == s.futures[t]
    ensures Drives(s, a) != [] ==> Drives(s, a)[0] != Return(t) && !(Drives(s, a)[0].NotifyRoom? && Drives(s, a)[0].t == t)
  {
    hide Apply, Enable, NotifyOne, NotifyWaiters, Consume, Drop, Enabled, OneConsumer, Waits;
  }

  lemma OtherFuture(s: Async, a: AAction, faulty: bool, t: nat)
    requires Inv(s.base) && Answered(s) && AEnabled(s, a, faulty) && t in s.futures && !OfFuture(a, t)
    ensures t in AApply(s, a, faulty).futures && Justified(AApply(s, a, faulty).base, t, AApply(s, a, faulty).futures[t])
  {
    OthersStay(s, a, faulty, t);
    BaseMoves(s, a, faulty);
    hide Inv, AApply, AEnabled, Justified, OneConsumer, Enabled;
    if Drives(s, a) != [] {
      StaysJustified(s.base, Drives(s, a)[0], t, s.futures[t]);
    }
  }

  lemma AttemptAnswers(s: Async, t: nat)
    requires Answered(s) && AEnabled(s, Attempt(t), false)
    ensures var s' := DoAttempt(s, t); t in s'.futures && Justified(s'.base, t, s'.futures[t])
  {
    PushDecides(s.base, Arrive(t, s.futures[t].value, false), t, s.futures[t].value, false);
    hide HasRoom, ClaimsAt;
  }

  lemma ReturnAnswers(s: Async, t: nat, faulty: bool)
    requires Inv(s.base) && Answered(s)
    ensures AEnabled(s, PushOk(t), faulty) ==>
              var s' := AApply(s, PushOk(t), faulty); t in s'.futures && Justified(s'.base, t, s'.futures[t])
    ensures AEnabled(s, PushErr(t), faulty) ==>
              var s' := AApply(s, PushErr(t), faulty); t in s'.futures && Justified(s'.base, t, s'.futures[t])
  {
    hide Inv;
    if t in s.base.threads && (s.base.threads[t].Stored? || s.base.threads[t].Owes?) {
      StoredKnown(s.base, t);
    }
  }

  lemma OwnFuture(s: Async, a: AAction, faulty: bool, t: nat)
    requires Inv(s.base) && Answered(s) && AEnabled(s, a, faulty) && OfFuture(a, t) && t in AApply(s, a, faulty).futures
    ensures Justified(AApply(s, a, faulty).base, t, AApply(s, a, faulty).futures[t])
  {
    hide Inv, Apply, Enable, NotifyOne, Consume, Drop, DoAttempt;
    match a
    case Attempt(_) => AttemptAnswers(s, t);
    case PushOk(_) => ReturnAnswers(s, t, faulty);
    case PushErr(_) => ReturnAnswers(s, t, faulty);
    case TellItems(_) => assert Justified(s.base, t, s.futures[t]);
    case _ =>
  }

  lemma HousedStep(s: Async, a: AAction, faulty: bool)
    requires Answered(s) && AEnabled(s, a, faulty)
    ensures Housed(AApply(s, a, faulty).base.threads, AApply(s, a, faulty).futures)
  {
    var s' := AApply(s, a, faulty);
    forall t | t in s'.base.threads
      ensures if t in s'.futures then s'.futures[t].at.InCall? else s'.base.threads[t].Closing?
    {
      HousedThread(s, a, faulty, t);
    }
  }

  /** A thread enters the queue only by its future's attempt, or to close. */
  lemma NewThread(s: Async, a: AAction, faulty: bool, t: nat)
    requires AEnabled(s, a, faulty) && t !in s.base.threads && t in AApply(s, a, faulty).base.threads
    ensures a == Attempt(t) || (a == CloseQueue(t) && AApply(s, a, faulty).base.threads[t].Closing? && t !in s.futures)
  {
    BaseMoves(s, a, faulty);
    if Drives(s, a) != [] {
      PushLife(s.base, Drives(s, a)[0], t);
    }
    hide HasRoom, Writes, Apply, Enable, NotifyOne, NotifyWaiters, Consume, Drop, Waits, OneConsumer;
    if a.CloseQueue? {
      ClosesNow(s.base, a.t);
    }
  }

  lemma ClosesNow(base: State, t: nat)
    requires Enabled(base, Close(t))
    ensures Apply(base, Close(t)).threads == base.threads[t := Closing]
  {
  }

  /** What a future's own step leaves in the queue. */
  lemma OwnThread(s: Async, a: AAction, faulty: bool, t: nat)
    requires Answered(s) && AEnabled(s, a, faulty) && OfFuture(a, t) && t in AApply(s, a, faulty).base.threads
    ensures t in AApply(s, a, faulty).futures && AApply(s, a, faulty).futures[t].at.InCall?
  {
    BaseMoves(s, a, faulty);
    if a.PushOk? || a.PushErr? {
      PushLife(s.base, Drives(s, a)[0], t);
    }
    hide HasRoom, Writes, Apply, Enable, NotifyOne, Consume, Drop, Waits, Justified;
  }

  lemma ClosingStays(s: Async, a: AAction, faulty: bool, t: nat)
    requires Answered(s) && AEnabled(s, a, faulty) && t in s.base.threads && t !in s.futures && !OfFuture(a, t)
    requires t in AApply(s, a, faulty).base.threads
    ensures AApply(s, a, faulty).base.threads[t].Closing? && t !in AApply(s, a, faulty).futures
  {
    BaseMoves(s, a, faulty);
    hide AApply, AEnabled, HasRoom, Writes, Apply, Justified, OneConsumer, Enabled;
    if Drives(s, a) != [] {
      PushLife(s.base, Drives(s, a)[0], t);
    }
    if t in AApply(s, a, faulty).futures {
      NotNew(s, a, faulty, t);
    }
  }

  lemma HousedThread(s: Async, a: AAction, faulty: bool, t: nat)
    requires Answered(s) && AEnabled(s, a, faulty) && t in AApply(s, a, faulty).base.threads
    ensures var s' := AApply(s, a, faulty); if t in s'.futures then s'.futures[t].at.InCall? else s'.base.threads[t].Closing?
  {
    if OfFuture(a, t) {
      OwnThread(s, a, faulty, t);
    } else if t !in s.base.threads {
      NewThread(s, a, faulty, t);
      hide Apply;
    } else if t in s.futures {
      OthersStay(s, a, faulty, t);
      hide AApply, AEnabled, Justified;
    } else {
      ClosingStays(s, a, faulty, t);
    }
  }

  /** A drained queue stays drained, and nothing is in it. */
  lemma ReserveStep(s: Async, a: AAction, faulty: bool)
    requires Inv(s.base) && Answered(s) && AEnabled(s, a, faulty)
    ensures ReserveJustified(AApply(s, a, faulty))
  {
    var s' := AApply(s, a, faulty);
    if s'.reserver == Departing(Nothing) {
      NothingStays(s, a, faulty);
      BaseMoves(s, a, faulty);
      hide AApply, AEnabled, Apply, Enabled, OneConsumer;
      DrainedMeans(s.base);
      if Drives(s, a) != [] {
        DrainedStep(s.base, Drives(s, a)[0]);
        StepKeeps(s.base, Drives(s, a)[0]);
        DrainedMeans(s'.base);
      }
    }
  }

  lemma NothingStays(s: Async, a: AAction, faulty: bool)
    requires AEnabled(s, a, faulty) && AApply(s, a, faulty).reserver == Departing(Nothing)
    ensures s.reserver == Departing(Nothing) || (s.base.q.closed && s.base.q.len == 0)
  {
    hide Apply, Enable, NotifyOne, NotifyWaiters, Consume, Drop, Waits, OneConsumer, Enabled;
  }

  lemma AnsweredStep(s: Async, a: AAction, faulty: bool)
    requires Inv(s.base) && Answered(s) && AEnabled(s, a, faulty)
    ensures Answered(AApply(s, a, faulty)) && Inv(AApply(s, a, faulty).base)
  {
    var s' := AApply(s, a, faulty);
    DriveStep(s, a, faulty);
    hide AApply, AEnabled, Inv, Justified, Answered;
    ReachKeeps(s.base, Drives(s, a), s'.base);
    HousedStep(s, a, faulty);
    ReserveStep(s, a, faulty);
    forall t | t in s'.futures
      ensures Justified(s'.base, t, s'.futures[t])
    {
      if OfFuture(a, t) {
        OwnFuture(s, a, faulty, t);
      } else {
        NotNew(s, a, faulty, t);
        OtherFuture(s, a, faulty, t);
      }
    }
    AnsweredIs(s');
  }

  lemma AnsweredIs(s: Async)
    requires forall t :: t in s.futures ==> Justified(s.base, t, s.futures[t])
    requires Housed(s.base.threads, s.futures) && ReserveJustified(s)
    ensures Answered(s)
  {
  }

  lemma NotNew(s: Async, a: AAction, faulty: bool, t: nat)
    requires AEnabled(s, a, faulty) && t in AApply(s, a, faulty).futures && !OfFuture(a, t)
    ensures t in s.futures
  {
    hide Apply, Enable, NotifyOne, NotifyWaiters, Consume, Drop, Waits, OneConsumer, Enabled;
  }

  lemma {:induction false} AnsweredRun(s: Async, acts: seq<AAction>, faulty: bool)
    requires Inv(s.base) && Answered(s) && ACanRun(s, acts, faulty)
    ensures Answered(ARun(s, acts, faulty)) && Inv(ARun(s, acts, faulty).base)
    decreases acts
  {
    hide Inv, Answered, AEnabled, AApply;
    if acts != [] {
      AnsweredStep(s, acts[0], faulty);
      AnsweredRun(AApply(s, acts[0], faulty), acts[1..], faulty);
    }
  }

  /**
   In every state of every run, with or without store failures: a push future about to return
   Ok has had its own bytes stored, one about to return a store error had its commit fail and
   holds no slot, one about to return Closed faces a closed queue, and only one that does not
   wait returns Full. A reserve about to return None faces a closed and empty queue.
   */
  lemma Replies(cfg: Config, disk: Disk, h: History, acts: seq<AAction>, faulty: bool)
    requires ACanRun(AOpen(cfg, disk, h), acts, faulty)
    ensures var s := ARun(AOpen(cfg, disk, h), acts, faulty);
            && (forall t :: t in s.futures && s.futures[t].at.Leaving? ==>
                  match s.futures[t].at.reply
                  case Accepted(no) => WasStored(s.base.h.book, no, s.futures[t].value)
                  case StoreError(no) => WasRefused(s.base.h.book, no, s.futures[t].value)
                  case Shut => s.base.q.closed
                  case NoRoom => !s.futures[t].wait)
            && (s.reserver == Departing(Nothing) ==> s.base.q.closed && s.base.q.len == 0 && s.base.disk.live == map[])
  {
    hide ARun, ACanRun, Inv, Answered, AOpen;
    StartsAnswered(cfg, disk, h);
    AnsweredRun(AOpen(cfg, disk, h), acts, faulty);
    WhatIsAnswered(ARun(AOpen(cfg, disk, h), acts, faulty));
  }

  lemma StartsAnswered(cfg: Config, disk: Disk, h: History)
    ensures Answered(AOpen(cfg, disk, h)) && Inv(AOpen(cfg, disk, h).base)
  {
    OpenKeeps(cfg, disk, h);
    hide Inv;
  }

  lemma WhatIsAnswered(s: Async)
    requires Answered(s)
    ensures forall t :: t in s.futures && s.futures[t].at.Leaving? ==>
              match s.futures[t].at.reply
              case Accepted(no) => WasStored(s.base.h.book, no, s.futures[t].value)
              case StoreError(no) => WasRefused(s.base.h.book, no, s.futures[t].value)
              case Shut => s.base.q.closed
              case NoRoom => !s.futures[t].wait
    ensures s.reserver == Departing(Nothing) ==> s.base.q.closed && s.base.q.len == 0 && s.base.disk.live == map[]
  {
    hide WasStored, WasRefused, Carries, Housed;
    forall t | t in s.futures
      ensures Justified(s.base, t, s.futures[t])
    {
    }
  }

  // ---- from one point to the next ----

  /** How push future `t` may change in a step from `s` to `s'`; it never changes its bytes. */
  ghost predicate FutureGoes(s: Async, s': Async, t: nat) {
    var before: Option<Future>, after: Option<Future> := Lookup(s.futures, t), Lookup(s'.futures, t);
    if before == after then true
    else if before.None? then after.value.at.Waking? || after.value.at.Trying?
    else if after.None? then before.value.at.Leaving? && t !in s'.room.regs
    else
      && after.value.value == before.value.value && after.value.wait == before.value.wait
      && match before.value.at
         case Waking => after.value.at.Trying? && t in s'.room.regs
         case Trying =>
           (match after.value.at
            case InCall => !s.base.q.closed && HasRoom(s.base, before.value.value) && t in s'.base.threads
            case Waiting => !s.base.q.closed && !HasRoom(s.base, before.value.value) && before.value.wait
            case Leaving(reply) =>
              if s.base.q.closed then reply == Shut else reply == NoRoom && !HasRoom(s.base, before.value.value) && !before.value.wait
            case _ => false)
         case InCall =>
           && t in s.base.threads && t !in s'.base.threads
           && if s.base.threads[t].Stored? then after.value.at == Pushed(s.base.threads[t].no)
              else s.base.threads[t].Owes? && after.value.at == Leaving(StoreError(s.base.threads[t].no))
         case Pushed(no) => after.value.at == Leaving(Accepted(no)) && s'.items == NotifyOne(s.items)
         case Waiting => after.value.at.Waking? && t in s.room.regs && s.room.regs[t] != Queued
         case Leaving(_) => false
  }

  lemma FutureLife(s: Async, a: AAction, faulty: bool, t: nat)
    requires AEnabled(s, a, faulty) && Sound(s.room)
    ensures FutureGoes(s, AApply(s, a, faulty), t)
    ensures OfFuture(a, t) ==> Lookup(AApply(s, a, faulty).futures, t) != Lookup(s.futures, t)
    ensures a.StartPush? && a.t == t ==>
              t in AApply(s, a, faulty).futures && AApply(s, a, faulty).futures[t].value == a.value
              && AApply(s, a, faulty).futures[t].wait == a.wait
  {
    if OfFuture(a, t) {
      OwnGoes(s, a, faulty, t);
      hide FutureGoes, HasRoom, Apply;
    } else if t in s.futures {
      OthersStay(s, a, faulty, t);
      hide AApply, AEnabled, HasRoom, NotifyOne;
    } else if t in AApply(s, a, faulty).futures {
      NotNew(s, a, faulty, t);
    }
  }

  lemma OwnGoes(s: Async, a: AAction, faulty: bool, t: nat)
    requires AEnabled(s, a, faulty) && Sound(s.room) && OfFuture(a, t)
    ensures FutureGoes(s, AApply(s, a, faulty), t)
    ensures Lookup(AApply(s, a, faulty).futures, t) != Lookup(s.futures, t)
  {
    hide FutureGoes;
    match a
    case Attempt(_) => AttemptGoes(s, t);
    case PushOk(_) => ReturnGoes(s, a, faulty, t);
    case PushErr(_) => ReturnGoes(s, a, faulty, t);
    case _ => FacadeGoes(s, a, faulty, t);
  }

  lemma ReturnGoes(s: Async, a: AAction, faulty: bool, t: nat)
    requires AEnabled(s, a, faulty) && (a == PushOk(t) || a == PushErr(t))
    ensures FutureGoes(s, AApply(s, a, faulty), t)
    ensures Lookup(AApply(s, a, faulty).futures, t) != Lookup(s.futures, t)
  {
    PushLife(s.base, if a.PushOk? then Return(t) else NotifyRoom(t, None), t);
    hide Apply, HasRoom, Writes;
  }

  lemma FacadeGoes(s: Async, a: AAction, faulty: bool, t: nat)
    requires AEnabled(s, a, faulty) && Sound(s.room) && OfFuture(a, t)
    requires !a.Attempt? && !a.PushOk? && !a.PushErr?
    ensures FutureGoes(s, AApply(s, a, faulty), t)
    ensures Lookup(AApply(s, a, faulty).futures, t) != Lookup(s.futures, t)
  {
    RegsOnly(s.room, t);
    hide Enable, Consume, Drop, Sound, HasRoom, NotifyOne, Apply;
  }

  lemma AttemptGoes(s: Async, t: nat)
    requires AEnabled(s, Attempt(t), false)
    ensures FutureGoes(s, DoAttempt(s, t), t)
    ensures Lookup(DoAttempt(s, t).futures, t) != Lookup(s.futures, t)
  {
    PushDecides(s.base, Arrive(t, s.futures[t].value, false), t, s.futures[t].value, false);
    hide HasRoom, ClaimsAt, Apply;
  }

  /** How the reserve may change in a step from `s` to `s'`. */
  ghost predicate ReserverGoes(s: Async, s': Async, faulty: bool) {
    s'.reserver == s.reserver ||
    match s.reserver
    case Away => s'.reserver.Rousing?
    case Rousing => s'.reserver.Ready? && 0 in s'.items.regs
    case Ready => s'.reserver.Calling? && 0 in s'.base.calls
    case Calling =>
      && 0 in s.base.calls && 0 !in s'.base.calls
      && (match s'.reserver
          case Empty => s.base.calls[0].Seeking? && forall k :: k in s.base.disk.live ==> k < s.base.calls[0].cursor
          case Departing(Took(g)) =>
            s.base.calls[0].Sought? && g !in s.base.guards
            && Lookup(s'.base.guards, g) == Some(Guard(s.base.calls[0].no, s.base.calls[0].item, Held))
          case Departing(SeekFailed) => faulty
          case _ => false)
    case Empty => s'.reserver == if s.base.q.closed && s.base.q.len == 0 then Departing(Nothing) else Parked
    case Parked => s'.reserver.Rousing? && 0 in s.items.regs && s.items.regs[0] != Queued
    case Departing(_) => s'.reserver.Away? && 0 !in s'.items.regs
  }

  /** Every step of the reserve itself moves it. */
  lemma ReserverLife(s: Async, a: AAction, faulty: bool)
    requires AEnabled(s, a, faulty) && Sound(s.items) && (s.reserver.Calling? ==> s.base.calls.Keys == {0})
    ensures ReserverGoes(s, AApply(s, a, faulty), faulty)
    ensures OfReserve(a) ==> AApply(s, a, faulty).reserver != s.reserver
  {
    if a.Within? {
      ScanEnds(s, a.b, faulty);
    } else if OfReserve(a) {
      OwnReserver(s, a, faulty);
    } else {
      hide ReserverGoes, Apply, Enable, NotifyOne, NotifyWaiters, Consume, Drop, OneConsumer, Enabled, Sound, Waits;
      assert AApply(s, a, faulty).reserver == s.reserver;
      SameReserver(s, AApply(s, a, faulty), faulty);
    }
  }

  lemma SameReserver(s: Async, s': Async, faulty: bool)
    requires s'.reserver == s.reserver
    ensures ReserverGoes(s, s', faulty)
  {
  }

  lemma OwnReserver(s: Async, a: AAction, faulty: bool)
    requires AEnabled(s, a, faulty) && Sound(s.items) && OfReserve(a)
    ensures ReserverGoes(s, AApply(s, a, faulty), faulty) && AApply(s, a, faulty).reserver != s.reserver
  {
    if a.CallReserve? {
      CallMade(s.base);
      hide Apply, HasRoom, OneConsumer;
      assert 0 in AApply(s, a, faulty).base.calls.Keys;
    } else {
      RegsOnly(s.items, 0);
      hide Enable, Consume, Drop, OneConsumer, Sound, Waits, Apply, HasRoom;
    }
  }

  lemma ScanEnds(s: Async, b: Action, faulty: bool)
    requires AEnabled(s, Within(b), faulty) && (s.reserver.Calling? ==> s.base.calls.Keys == {0})
    ensures ReserverGoes(s, DoWithin(s, b), faulty)
  {
    ScanLife(s.base, b, 0);
    hide Mark, Admits, Jump, Put, Erase, Wakes, Wake, Rouse, LeastFrom;
  }

  // ---- nobody is blocked but by its await ----

  /** Nobody in the queue sleeps on its condition variable: the facade only tries. */
  lemma NobodySleeps(s: Async)
    requires Answered(s)
    ensures forall t :: t in s.base.threads ==> !s.base.threads[t].Asleep?
  {
    hide WasStored, WasRefused, ReserveJustified;
    forall t | t in s.base.threads
      ensures !s.base.threads[t].Asleep?
    {
      if t in s.futures {
        assert Justified(s.base, t, s.futures[t]);
      }
    }
  }

  /** Every push future has a step to make, but one whose await is not over. */
  lemma FutureGoesOn(s: Async, t: nat) returns (a: AAction)
    requires Answered(s) && t in s.futures && s.base.q.tail < U64_MAX && |s.futures[t].value| <= USIZE_MAX
    requires s.futures[t].at.Waiting? ==> !Unresumed(s.room, t)
    ensures AEnabled(s, a, false) && (OfFuture(a, t) || a == Within(Commit(t, true)) || a == Within(GiveBack(t)))
  {
    NobodySleeps(s);
    assert Justified(s.base, t, s.futures[t]);
    hide WasStored, WasRefused, ReserveJustified;
    match s.futures[t].at
    case Waking => a := RegisterPush(t);
    case Trying => a := Attempt(t);
    case InCall =>
      var pc := s.base.threads[t];
      a := if pc.Claimed? then Within(Commit(t, true))
           else if pc.Stored? then PushOk(t)
           else if pc.Failed? then Within(GiveBack(t))
           else PushErr(t);
    case Pushed(_) => a := TellItems(t);
    case Waiting => a := ResumePush(t);
    case Leaving(_) => a := LeavePush(t);
  }

  /** So has the reserve, when no ack is under way in the queue. */
  lemma ReserverGoesOn(s: Async, g: nat) returns (a: AAction)
    requires !s.reserver.Away? && (s.reserver.Calling? <==> 0 in s.base.calls)
    requires s.reserver.Ready? ==> ConsumerIdle(s.base)
    requires s.reserver.Parked? ==> !Unresumed(s.items, 0)
    requires g !in s.base.guards && g !in s.ackRoom + s.ackItems + s.nacks
    ensures AEnabled(s, a, false) && (OfReserve(a) || a == Within(Seek(0, true)) || a == Within(Take(0, g)))
  {
    match s.reserver
    case Rousing => a := RegisterReserve;
    case Ready => a := CallReserve;
    case Calling => a := Within(if s.base.calls[0].Seeking? then Seek(0, true) else Take(0, g));
    case Empty => a := AskDrained;
    case Parked => a := ResumeReserve;
    case Departing(_) => a := LeaveReserve;
  }

  /** With store failures every store operation of the facade may fail. */
  lemma StoreMayFail(s: Async)
    ensures forall t :: t in s.base.threads && s.base.threads[t].Claimed? ==> AEnabled(s, Within(Commit(t, false)), true)
    ensures forall c :: c in s.base.calls && s.base.calls[c].Seeking? ==> AEnabled(s, Within(Seek(c, false)), true)
    ensures forall g :: g in s.base.guards && s.base.guards[g].phase == Acking ==> AEnabled(s, Within(Delete(g, false)), true)
  {
  }

  /** Every notification owed can be sent. */
  lemma DebtsGoOn(s: Async)
    requires Answered(s)
    ensures forall t :: t in s.futures && s.futures[t].at.Pushed? ==> AEnabled(s, TellItems(t), false)
    ensures forall g :: g in s.base.guards && s.base.guards[g].phase == Settled ==> AEnabled(s, AckOk(g), false)
    ensures forall g :: (g in s.ackRoom ==> AEnabled(s, AckRoom(g), false)) && (g in s.ackItems ==> AEnabled(s, AckItems(g), false))
    ensures forall g :: g in s.nacks ==> AEnabled(s, NackItems(g), false)
    ensures forall t :: t in s.base.threads && s.base.threads[t].Closing? ==> AEnabled(s, CloseWoke(t), false)
    ensures forall t :: (t in s.closeRoom ==> AEnabled(s, CloseRoom(t), false)) && (t in s.closeItems ==> AEnabled(s, CloseItems(t), false))
  {
    NobodySleeps(s);
    hide Answered;
  }
}
