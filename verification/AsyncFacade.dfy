/**
 The async facade: push and reserve register with a `Notify` before each attempt and
 await it when the attempt finds no room or no item. Futures drive the queue of `Protocol`
 through `try_push`; every step between two points where no lock is held is one action.
 */
module AsyncFacade {
  import opened Base
  import opened Protocol
  import opened Invariants
  import opened Theorems
  import opened Notify
  import opened Wakeups

  /** What a push future returns; `no` only records which seq it was about. */
  datatype Reply = Accepted(no: nat) | NoRoom | Shut | StoreError(no: nat)

  /** Where a push future is. */
  datatype At =
    | Waking                  // about to register with `room`
    | Trying                  // registered, `try_push` not yet decided
    | InCall                  // admitted, inside `try_push`
    | Pushed(no: nat)         // `try_push` returned Ok, `items.notify_one` owed
    | Waiting                 // `try_push` found the queue full: awaiting `room`
    | Leaving(reply: Reply)   // about to return, its registration still held

  /** `woken` records that the last await ended with a `notify_one`. */
  datatype Future = Future(value: Bytes, wait: bool, woken: bool, at: At)

  /** What the consumer's `reserve` returns. */
  datatype Found = Took(g: nat) | Nothing | SeekFailed

  /** Where the consumer's `reserve` is. */
  datatype Reserver =
    | Away
    | Rousing    // about to register with `items`
    | Ready      // registered
    | Calling    // inside the queue's own `reserve`
    | Empty      // it found nothing; `is_drained` not yet asked
    | Parked     // awaiting `items`
    | Departing(found: Found)   // about to return, its registration still held

  /**
   `ackRoom`, `ackItems` and `nacks` are the guards whose ack or nack is over in the queue
   and still owes `room` or `items` a notification; `closeRoom` and `closeItems` likewise
   for close.
   */
  datatype Async = Async(
    base: State, futures: map<nat, Future>, room: Notify, items: Notify, reserver: Reserver,
    ackRoom: set<nat>, ackItems: set<nat>, nacks: set<nat>, closeRoom: set<nat>, closeItems: set<nat>)

  datatype AAction =
    | StartPush(t: nat, value: Bytes, wait: bool)
    | RegisterPush(t: nat)
    | Attempt(t: nat)
    | Within(b: Action)          // a step inside `try_push`, `reserve` or `ack`
    | PushOk(t: nat)
    | PushErr(t: nat)
    | TellItems(t: nat)
    | LeavePush(t: nat)
    | ResumePush(t: nat)
    | StartReserve
    | RegisterReserve
    | CallReserve
    | AskDrained
    | ResumeReserve
    | LeaveReserve
    | AckOk(g: nat)
    | AckRoom(g: nat)
    | AckItems(g: nat)
    | Nack(g: nat)
    | NackItems(g: nat)
    | CloseQueue(t: nat)
    | CloseWoke(t: nat)
    | CloseRoom(t: nat)
    | CloseItems(t: nat)

  predicate IsAt(s: Async, t: nat, at: At) {
    t in s.futures && s.futures[t].at == at
  }

  /** The steps inside the queue; only with `faulty` may the store fail. */
  predicate Inside(s: Async, b: Action, faulty: bool) {
    match b
    case Commit(t, ok) => ok || faulty
    case GiveBack(t) => true
    case Seek(c, ok) => ok || faulty
    case Take(c, g) => g !in s.ackRoom + s.ackItems + s.nacks
    case BeginAck(g) => true
    case Delete(g, ok) => ok || faulty
    case SettleAck(g) => true
    case Release(g) => g in s.base.guards && s.base.guards[g].phase == Dropping
    case _ => false
  }

  predicate AEnabled(s: Async, a: AAction, faulty: bool) {
    match a
    case StartPush(t, value, wait) => t !in s.futures && t !in s.base.threads && |value| <= USIZE_MAX
    case RegisterPush(t) => IsAt(s, t, Waking)
    case Attempt(t) => IsAt(s, t, Trying) && Enabled(s.base, Arrive(t, s.futures[t].value, false))
    case Within(b) => Allowed(s.base, b, true) && Inside(s, b, faulty)
    case PushOk(t) => IsAt(s, t, InCall) && Enabled(s.base, Return(t))
    case PushErr(t) => IsAt(s, t, InCall) && Enabled(s.base, NotifyRoom(t, None))
    case TellItems(t) => t in s.futures && s.futures[t].at.Pushed?
    case LeavePush(t) => t in s.futures && s.futures[t].at.Leaving?
    case ResumePush(t) => IsAt(s, t, Waiting) && t in s.room.regs && !Waits(s.room, t)
    case StartReserve => s.reserver.Away?
    case RegisterReserve => s.reserver.Rousing?
    case CallReserve => s.reserver.Ready? && Allowed(s.base, BeginReserve(0), true)
    case AskDrained => s.reserver.Empty?
    case ResumeReserve => s.reserver.Parked? && 0 in s.items.regs && !Waits(s.items, 0)
    case LeaveReserve => s.reserver.Departing?
    case AckOk(g) => Enabled(s.base, NotifyAck(g, None))
    case AckRoom(g) => g in s.ackRoom
    case AckItems(g) => g in s.ackItems
    case Nack(g) =>
      Allowed(s.base, Release(g), true) && s.base.guards[g].phase == Held
    case NackItems(g) => g in s.nacks
    case CloseQueue(t) => t !in s.futures && Enabled(s.base, Close(t))
    case CloseWoke(t) => Enabled(s.base, NotifyAll(t))
    case CloseRoom(t) => t in s.closeRoom
    case CloseItems(t) => t in s.closeItems
  }

  function Moved(s: Async, t: nat, at: At): map<nat, Future>
    requires t in s.futures
  {
    s.futures[t := s.futures[t].(at := at)]
  }

  function DoAttempt(s: Async, t: nat): Async
    requires AEnabled(s, Attempt(t), false)
  {
    var base := Apply(s.base, Arrive(t, s.futures[t].value, false));
    var at :=
      if t in base.threads then InCall
      else if base.q.closed then Leaving(Shut)
      else if !s.futures[t].wait then Leaving(NoRoom)
      else Waiting;
    s.(base := base, futures := Moved(s, t, at))
  }

  function DoWithin(s: Async, b: Action): Async
    requires Enabled(s.base, b)
  {
    var base := Apply(s.base, b);
    var ended := s.reserver.Calling? && 0 !in base.calls;
    s.(base := base,
    reserver := if !ended then s.reserver
                else if b.Seek? && b.ok then Empty
                else Departing(if b.Take? then Took(b.g) else SeekFailed))
  }

  function AApply(s: Async, a: AAction, faulty: bool): Async
    requires AEnabled(s, a, faulty)
  {
    match a
    case StartPush(t, value, wait) =>
      s.(futures := s.futures[t := Future(value, wait, false, if wait then Waking else Trying)])
    case RegisterPush(t) => s.(room := Enable(s.room, t), futures := Moved(s, t, Trying))
    case Attempt(t) => DoAttempt(s, t)
    case Within(b) => DoWithin(s, b)
    case PushOk(t) => s.(base := Apply(s.base, Return(t)), futures := Moved(s, t, Pushed(s.base.threads[t].no)))
    case PushErr(t) => s.(base := Apply(s.base, NotifyRoom(t, None)), futures := Moved(s, t, Leaving(StoreError(s.base.threads[t].no))))
    case TellItems(t) => s.(items := NotifyOne(s.items), futures := Moved(s, t, Leaving(Accepted(s.futures[t].at.no))))
    case LeavePush(t) => s.(room := Drop(s.room, t), futures := s.futures - {t})
    case ResumePush(t) =>
      s.(room := Consume(s.room, t),
      futures := s.futures[t := s.futures[t].(at := Waking, woken := s.room.regs[t] == Told)])
    case StartReserve => s.(reserver := Rousing)
    case RegisterReserve => s.(items := Enable(s.items, 0), reserver := Ready)
    case CallReserve => s.(base := Apply(s.base, BeginReserve(0)), reserver := Calling)
    case AskDrained => s.(reserver := if s.base.q.closed && s.base.q.len == 0 then Departing(Nothing) else Parked)
    case ResumeReserve => s.(items := Consume(s.items, 0), reserver := Rousing)
    case LeaveReserve => s.(items := Drop(s.items, 0), reserver := Away)
    case AckOk(g) => s.(base := Apply(s.base, NotifyAck(g, None)), ackRoom := s.ackRoom + {g})
    case AckRoom(g) => s.(room := NotifyOne(s.room), ackRoom := s.ackRoom - {g}, ackItems := s.ackItems + {g})
    case AckItems(g) => s.(items := NotifyOne(s.items), ackItems := s.ackItems - {g})
    case Nack(g) => s.(base := Apply(s.base, Release(g)), nacks := s.nacks + {g})
    case NackItems(g) => s.(items := NotifyOne(s.items), nacks := s.nacks - {g})
    case CloseQueue(t) => s.(base := Apply(s.base, Close(t)))
    case CloseWoke(t) => s.(base := Apply(s.base, NotifyAll(t)), closeRoom := s.closeRoom + {t})
    case CloseRoom(t) =>
      s.(room := NotifyWaiters(s.room), closeRoom := s.closeRoom - {t}, closeItems := s.closeItems + {t})
    case CloseItems(t) => s.(items := NotifyWaiters(s.items), closeItems := s.closeItems - {t})
  }

  /** The step of the queue that a step of the facade makes. */
  function Drives(s: Async, a: AAction): seq<Action>
    requires a.Attempt? ==> a.t in s.futures
  {
    match a
    case Attempt(t) => [Arrive(t, s.futures[t].value, false)]
    case Within(b) => [b]
    case PushOk(t) => [Return(t)]
    case PushErr(t) => [NotifyRoom(t, None)]
    case CallReserve => [BeginReserve(0)]
    case AckOk(g) => [NotifyAck(g, None)]
    case Nack(g) => [Release(g)]
    case CloseQueue(t) => [Close(t)]
    case CloseWoke(t) => [NotifyAll(t)]
    case _ => []
  }

  lemma BaseMoves(s: Async, a: AAction, faulty: bool)
    requires AEnabled(s, a, faulty)
    ensures var acts := Drives(s, a);
            if acts == [] then AApply(s, a, faulty).base == s.base
            else Allowed(s.base, acts[0], true) && AApply(s, a, faulty).base == Apply(s.base, acts[0])
  {
    hide Apply, Enable, NotifyOne, NotifyWaiters, Consume, Drop;
  }

  // ---- what is suspended, and which wakes are on the way ----

  /** A push whose await would not complete if polled now. */
  predicate Suspended(futures: map<nat, Future>, room: Notify) {
    exists t :: t in futures && futures[t].at.Waiting? && Waits(room, t)
  }

  /** Pushes that a `notify_one` woke and that have yet to try again. */
  function Rechecking(futures: map<nat, Future>): set<nat> {
    set t | t in futures && Rechecks(futures[t])
  }

  predicate Rechecks(k: Future) {
    k.woken && (k.at.Waking? || k.at.Trying?)
  }

  /** Wakes of `room` delivered, passed on when dropped, or still owed by an ack. */
  function RoomCredit(s: Async): nat {
    |Rechecking(s.futures)| + |Tolds(s.room)| + |Settling(s.base.guards)| + |s.ackRoom|
  }

  ghost predicate RoomKept(s: Async) {
    !s.base.q.closed && Suspended(s.futures, s.room) ==> s.base.cfg.capacity - s.base.q.len <= RoomCredit(s)
  }

  predicate CloseOwesRoom(s: Async) {
    SomeoneCloses(s.base.threads) || s.closeRoom != {}
  }

  ghost predicate ShutKept(s: Async) {
    s.base.q.closed && Suspended(s.futures, s.room) ==> CloseOwesRoom(s)
  }

  predicate SomeoneLanded(threads: map<nat, Pc>) {
    exists t :: t in threads && threads[t].Stored?
  }

  predicate SomeonePushed(futures: map<nat, Future>) {
    exists t :: t in futures && futures[t].at.Pushed?
  }

  /** A notification of `items` is still owed by a push, an ack, a nack or a close. */
  predicate ItemsOwed(s: Async) {
    || SomeoneLanded(s.base.threads) || SomeonePushed(s.futures)
    || Settling(s.base.guards) != {} || s.ackRoom != {} || s.ackItems != {} || s.nacks != {}
    || SomeoneCloses(s.base.threads) || s.closeRoom != {} || s.closeItems != {}
  }

  /** What a `reserve` that goes to sleep from here on would have missed. */
  predicate Missed(s: Async) {
    match s.reserver
    case Calling => 0 in s.base.calls && exists k :: k in Reservable(s.base) && k !in s.base.calls[0].avail
    case Empty => Reservable(s.base) != {}
    case Parked => Reservable(s.base) != {} || (s.base.q.closed && s.base.q.len == 0)
    case _ => false
  }

  ghost predicate ItemsKept(s: Async) {
    Waits(s.items, 0) && Missed(s) ==> ItemsOwed(s)
  }

  /** A thread in the queue is a push future's `try_push`, not failed, or a close. */
  ghost predicate ThreadsLinked(threads: map<nat, Pc>, futures: map<nat, Future>) {
    forall t :: t in threads ==>
      if t in futures then futures[t].at.InCall? && (threads[t].Claimed? || threads[t].Stored?)
      else threads[t].Closing?
  }

  /** A push that waits is registered from before its attempt until it returns, or its await ends. */
  ghost predicate RoomLinked(room: Notify, futures: map<nat, Future>) {
    && (forall t :: t in room.regs ==> t in futures && !futures[t].at.Waking?)
    && (forall t :: t in futures && futures[t].wait && !futures[t].at.Waking? ==> t in room.regs)
    && (forall t :: t in futures && futures[t].at.Waiting? ==> futures[t].wait)
  }

  /** One reserve at a time, and only it registers with `items`. */
  ghost predicate ReserverLinked(items: Notify, calls: map<nat, Call>, reserver: Reserver) {
    && (forall w :: w in items.regs ==> w == 0 && !reserver.Away? && !reserver.Rousing?)
    && (!reserver.Away? && !reserver.Rousing? ==> 0 in items.regs)
    && (forall c :: c in calls ==> c == 0)
    && (reserver.Calling? <==> 0 in calls)
  }

  /** A guard still in the queue owes nothing outside it, and no delete has failed. */
  ghost predicate GuardsLinked(guards: map<nat, Guard>, owing: set<nat>) {
    forall g :: g in guards ==> g !in owing && guards[g].phase != Dropping
  }

  /** The futures, the reserver and the registrations match the threads and calls of the queue. */
  ghost predicate Linked(s: Async) {
    && ThreadsLinked(s.base.threads, s.futures) && RoomLinked(s.room, s.futures)
    && ReserverLinked(s.items, s.base.calls, s.reserver)
    && GuardsLinked(s.base.guards, s.ackRoom + s.ackItems + s.nacks)
  }

  ghost predicate AInv(s: Async) {
    && Inv(s.base) && ByCountOnly(s.base.cfg)
    && Linked(s) && Sound(s.room) && Sound(s.items)
    && RoomKept(s) && ShutKept(s) && ItemsKept(s)
  }

  // ---- the room side ----

  lemma FutureMoves(futures: map<nat, Future>, t: nat, k: Future)
    ensures var was := One(t in futures && Rechecks(futures[t]));
            && |Rechecking(futures[t := k])| == |Rechecking(futures)| - was + One(Rechecks(k))
            && |Rechecking(futures - {t})| == |Rechecking(futures)| - was
  {
    SizesDiffer(Rechecking(futures), Rechecking(futures[t := k]), t);
    SizesDiffer(Rechecking(futures), Rechecking(futures - {t}), t);
  }

  lemma SuspendedMoves(futures: map<nat, Future>, room: Notify, t: nat, k: Future)
    ensures Suspended(futures[t := k], room) ==> Suspended(futures, room) || (k.at.Waiting? && Waits(room, t))
    ensures Suspended(futures - {t}, room) ==> Suspended(futures, room)
  {
    if x :| x in futures[t := k] && futures[t := k][x].at.Waiting? && Waits(room, x) {
      assert x != t ==> x in futures && futures[x].at.Waiting?;
    }
  }

  lemma SuspendedFewer(futures: map<nat, Future>, room: Notify, room': Notify, t: nat)
    requires forall w :: Waits(room', w) && w != t ==> Waits(room, w)
    requires t in futures ==> !futures[t].at.Waiting? || (Waits(room', t) ==> Waits(room, t))
    ensures Suspended(futures, room') ==> Suspended(futures, room)
  {
    if x :| x in futures && futures[x].at.Waiting? && Waits(room', x) {
      assert Waits(room, x);
    }
  }

  /** Both promises about suspended pushes. */
  ghost predicate PushKept(s: Async) {
    RoomKept(s) && ShutKept(s)
  }

  lemma StartPushRoom(s: Async, t: nat, value: Bytes, wait: bool)
    requires PushKept(s) && AEnabled(s, StartPush(t, value, wait), false)
    ensures PushKept(AApply(s, StartPush(t, value, wait), false))
  {
    var k := Future(value, wait, false, if wait then Waking else Trying);
    FutureMoves(s.futures, t, k);
    SuspendedMoves(s.futures, s.room, t, k);
    hide Suspended, Rechecking, Tolds, Settling;
  }

  lemma EnableWaits(n: Notify, w: nat)
    ensures forall x :: x != w && Waits(Enable(n, w), x) ==> Waits(n, x)
  {
  }

  lemma RegisterPushRoom(s: Async, t: nat)
    requires PushKept(s) && Linked(s) && AEnabled(s, RegisterPush(t), false)
    ensures PushKept(AApply(s, RegisterPush(t), false))
  {
    var k := s.futures[t].(at := Trying);
    assert t !in s.room.regs;
    FutureMoves(s.futures, t, k);
    SuspendedMoves(s.futures, s.room, t, k);
    ToldMoves(s.room, t);
    EnableWaits(s.room, t);
    SuspendedFewer(s.futures[t := k], s.room, Enable(s.room, t), t);
    hide Linked, Suspended, Rechecking, Tolds, Settling, Enable;
  }

  /** `try_push` admits exactly when the queue is open and has a free slot. */
  lemma AttemptMeans(s: Async, t: nat)
    requires ByCountOnly(s.base.cfg) && AEnabled(s, Attempt(t), false) && s.base.q.len >= 0
    ensures var s' := DoAttempt(s, t); var admitted := !s.base.q.closed && s.base.q.len < s.base.cfg.capacity;
            && s'.futures == Moved(s, t, if admitted then InCall else if s.base.q.closed then Leaving(Shut)
                                           else if !s.futures[t].wait then Leaving(NoRoom) else Waiting)
            && s'.base.q.len == s.base.q.len + One(admitted) && s'.base.q.closed == s.base.q.closed
            && s'.base.cfg == s.base.cfg && s'.base.guards == s.base.guards
            && s'.base.calls == s.base.calls && s'.base.disk == s.base.disk && s'.base.q.reserved == s.base.q.reserved
            && (if admitted then t in s'.base.threads && s'.base.threads[t].Claimed?
                                 && s'.base.threads == s.base.threads[t := s'.base.threads[t]]
                else s'.base.threads == s.base.threads)
  {
    var v := s.futures[t].value;
    AdmitsByCount(s.base.cfg, s.base.q.len, s.base.q.bytes, |v|);
    hide Admits, ByCountOnly;
    assert s.base.threads - {t} == s.base.threads;
  }

  lemma AttemptRoom(s: Async, t: nat)
    requires PushKept(s) && ByCountOnly(s.base.cfg) && s.base.q.len >= 0 && AEnabled(s, Attempt(t), false)
    ensures PushKept(AApply(s, Attempt(t), false))
  {
    AttemptMeans(s, t);
    var s' := DoAttempt(s, t);
    FutureMoves(s.futures, t, s'.futures[t]);
    SuspendedMoves(s.futures, s.room, t, s'.futures[t]);
    if t in s'.base.threads {
      SleepersMove(s.base.threads, t, s'.base.threads[t]);
    }
    hide Suspended, Rechecking, Tolds, Settling, DoAttempt, SomeoneCloses;
  }

  /** Steps of the queue itself: a slot is freed only by an ack that then owes `room` a wake. */
  lemma WithinRoom(s: Async, b: Action)
    requires PushKept(s) && Linked(s) && AEnabled(s, Within(b), false)
    ensures PushKept(AApply(s, Within(b), false))
  {
    var base, base' := s.base, Apply(s.base, b);
    if b.Commit? {
      SleepersMove(base.threads, b.t, base'.threads[b.t]);
    }
    if b.Take? || b.BeginAck? || b.Delete? || b.SettleAck? {
      SettlingMoves(base.guards, b.g, if b.g in base'.guards then base'.guards[b.g] else Guard(0, Item(0, []), Held));
    }
    hide Linked, Suspended, Rechecking, Tolds, Settling, SomeoneCloses;
  }

  lemma PushOkRoom(s: Async, t: nat)
    requires PushKept(s) && AEnabled(s, PushOk(t), false)
    ensures PushKept(AApply(s, PushOk(t), false))
  {
    var k := s.futures[t].(at := Pushed(s.base.threads[t].no));
    FutureMoves(s.futures, t, k);
    SuspendedMoves(s.futures, s.room, t, k);
    SleepersMove(s.base.threads, t, s.base.threads[t]);
    hide Suspended, Rechecking, Tolds, Settling, SomeoneCloses;
  }

  lemma TellItemsRoom(s: Async, t: nat)
    requires PushKept(s) && AEnabled(s, TellItems(t), false)
    ensures PushKept(AApply(s, TellItems(t), false))
  {
    var k := s.futures[t].(at := Leaving(Accepted(s.futures[t].at.no)));
    FutureMoves(s.futures, t, k);
    SuspendedMoves(s.futures, s.room, t, k);
    hide Suspended, Rechecking, Tolds, Settling, SomeoneCloses;
  }

  lemma SomeoneWaits(futures: map<nat, Future>, room: Notify)
    ensures Suspended(futures, room) ==> exists x :: Waits(room, x)
  {
  }

  lemma LeavePushRoom(s: Async, t: nat)
    requires PushKept(s) && Sound(s.room) && AEnabled(s, LeavePush(t), false)
    ensures PushKept(AApply(s, LeavePush(t), false))
  {
    var room' := Drop(s.room, t);
    FutureMoves(s.futures, t, s.futures[t]);
    SuspendedMoves(s.futures, s.room, t, s.futures[t]);
    DropKeeps(s.room, t);
    SuspendedFewer(s.futures - {t}, s.room, room', t);
    DropForwards(s.room, t);
    SomeoneWaits(s.futures - {t}, room');
    hide Suspended, Rechecking, Tolds, Settling, SomeoneCloses, Drop, Waits;
  }

  lemma ResumePushRoom(s: Async, t: nat)
    requires PushKept(s) && Sound(s.room) && AEnabled(s, ResumePush(t), false)
    ensures PushKept(AApply(s, ResumePush(t), false))
  {
    var k := s.futures[t].(at := Waking, woken := s.room.regs[t] == Told);
    FutureMoves(s.futures, t, k);
    SuspendedMoves(s.futures, s.room, t, k);
    ConsumeKeeps(s.room, t);
    SuspendedFewer(s.futures[t := k], s.room, Consume(s.room, t), t);
    ToldMoves(s.room, t);
    hide Suspended, Rechecking, Tolds, Settling, SomeoneCloses;
  }

  lemma GuardNotOwed(s: Async, g: nat)
    requires Linked(s) && g in s.base.guards
    ensures g !in s.ackRoom && |s.ackRoom + {g}| == |s.ackRoom| + 1
  {
    assert g in s.base.guards.Keys;
  }

  lemma AckOkRoom(s: Async, g: nat)
    requires PushKept(s) && Linked(s) && AEnabled(s, AckOk(g), false)
    ensures PushKept(AApply(s, AckOk(g), false))
  {
    hide Linked, Suspended, Rechecking, Tolds, Settling, SomeoneCloses, Wakes;
    SettlingMoves(s.base.guards, g, s.base.guards[g]);
    GuardNotOwed(s, g);
  }

  lemma AckRoomRoom(s: Async, g: nat)
    requires PushKept(s) && Sound(s.room) && AEnabled(s, AckRoom(g), false)
    ensures PushKept(AApply(s, AckRoom(g), false))
  {
    NotifyOneTells(s.room);
    NotifyOneKeeps(s.room);
    SuspendedFewer(s.futures, s.room, NotifyOne(s.room), 0);
    SomeoneWaits(s.futures, s.room);
    hide Suspended, Rechecking, Tolds, Settling, SomeoneCloses, Waits;
  }

  lemma CloseQueueRoom(s: Async, t: nat)
    requires PushKept(s) && AEnabled(s, CloseQueue(t), false)
    ensures PushKept(AApply(s, CloseQueue(t), false))
  {
    hide Suspended, Rechecking, Tolds, Settling, SomeoneCloses;
    SleepersMove(s.base.threads, t, Closing);
  }

  lemma CloseWokeRoom(s: Async, t: nat)
    requires PushKept(s) && AEnabled(s, CloseWoke(t), false)
    ensures PushKept(AApply(s, CloseWoke(t), false))
  {
    hide Suspended, Rechecking, Tolds, Settling, SomeoneCloses, Rouse;
  }

  lemma CloseRoomRoom(s: Async, t: nat)
    requires Sound(s.room) && AEnabled(s, CloseRoom(t), false)
    ensures PushKept(AApply(s, CloseRoom(t), false))
  {
    hide Suspended, Rechecking, Tolds, Settling, SomeoneCloses, NotifyWaiters, Sound, Waits;
    NotifyWaitersKeeps(s.room);
    SomeoneWaits(s.futures, NotifyWaiters(s.room));
  }

  lemma ConsumerRoom(s: Async, a: AAction)
    requires PushKept(s) && AEnabled(s, a, false)
    requires a.StartReserve? || a.RegisterReserve? || a.CallReserve? || a.AskDrained? || a.ResumeReserve?
             || a.LeaveReserve? || a.AckItems? || a.Nack? || a.NackItems? || a.CloseItems?
    ensures PushKept(AApply(s, a, false))
  {
    if a.Nack? {
      SettlingMoves(s.base.guards, a.g, s.base.guards[a.g]);
    }
    hide Suspended, Rechecking, Tolds, Settling, SomeoneCloses;
  }

  lemma RoomStep(s: Async, a: AAction)
    requires PushKept(s) && Linked(s) && Sound(s.room) && ByCountOnly(s.base.cfg) && s.base.q.len >= 0
    requires AEnabled(s, a, false)
    ensures PushKept(AApply(s, a, false))
  {
    hide PushKept, Linked, Sound, ByCountOnly, AApply;
    match a
    case StartPush(t, value, wait) => StartPushRoom(s, t, value, wait);
    case RegisterPush(t) => RegisterPushRoom(s, t);
    case Attempt(t) => AttemptRoom(s, t);
    case Within(b) => WithinRoom(s, b);
    case PushOk(t) => PushOkRoom(s, t);
    case PushErr(t) => NoErr(s, t);
    case TellItems(t) => TellItemsRoom(s, t);
    case LeavePush(t) => LeavePushRoom(s, t);
    case ResumePush(t) => ResumePushRoom(s, t);
    case AckOk(g) => AckOkRoom(s, g);
    case AckRoom(g) => AckRoomRoom(s, g);
    case CloseQueue(t) => CloseQueueRoom(s, t);
    case CloseWoke(t) => CloseWokeRoom(s, t);
    case CloseRoom(t) => CloseRoomRoom(s, t);
    case _ => ConsumerRoom(s, a);
  }

  /** Without store failures no push returns a store error. */
  lemma NoErr(s: Async, t: nat)
    requires Linked(s)
    ensures !AEnabled(s, PushErr(t), false)
  {
  }

  // ---- the items side ----

  lemma LandedMoves(threads: map<nat, Pc>, t: nat, pc: Pc)
    ensures SomeoneLanded(threads) && !(t in threads && threads[t].Stored?) ==>
              SomeoneLanded(threads[t := pc]) && SomeoneLanded(threads - {t})
    ensures pc.Stored? ==> SomeoneLanded(threads[t := pc])
  {
    if x :| x in threads && threads[x].Stored? {
      assert x != t ==> x in threads[t := pc] && threads[t := pc][x].Stored?;
      assert x != t ==> x in threads - {t} && (threads - {t})[x].Stored?;
    }
    if pc.Stored? {
      assert t in threads[t := pc] && threads[t := pc][t].Stored?;
    }
  }

  lemma PushedMoves(futures: map<nat, Future>, t: nat, k: Future)
    ensures SomeonePushed(futures) && !(t in futures && futures[t].at.Pushed?) ==>
              SomeonePushed(futures[t := k]) && SomeonePushed(futures - {t})
    ensures k.at.Pushed? ==> SomeonePushed(futures[t := k])
  {
    if x :| x in futures && futures[x].at.Pushed? {
      assert x != t ==> x in futures[t := k] && futures[t := k][x].at.Pushed?;
      assert x != t ==> x in futures - {t} && (futures - {t})[x].at.Pushed?;
    }
    if k.at.Pushed? {
      assert t in futures[t := k] && futures[t := k][t].at.Pushed?;
    }
  }

  lemma FutureItems(s: Async, a: AAction)
    requires ItemsKept(s) && AEnabled(s, a, false)
    requires a.StartPush? || a.RegisterPush? || a.LeavePush? || a.ResumePush?
    ensures ItemsKept(AApply(s, a, false))
  {
    var s' := AApply(s, a, false);
    PushedMoves(s.futures, a.t, if a.LeavePush? then s.futures[a.t] else s'.futures[a.t]);
    hide SomeoneLanded, SomeonePushed, SomeoneCloses, Settling, Waits;
  }

  lemma AttemptItems(s: Async, t: nat)
    requires ItemsKept(s) && ByCountOnly(s.base.cfg) && s.base.q.len >= 0 && AEnabled(s, Attempt(t), false)
    ensures ItemsKept(AApply(s, Attempt(t), false))
  {
    AttemptMeans(s, t);
    var s' := DoAttempt(s, t);
    PushedMoves(s.futures, t, s'.futures[t]);
    if t in s'.base.threads {
      SleepersMove(s.base.threads, t, s'.base.threads[t]);
      LandedMoves(s.base.threads, t, s'.base.threads[t]);
    }
    hide SomeoneLanded, SomeonePushed, SomeoneCloses, Settling, Waits, DoAttempt;
  }

  /** What a commit makes reservable, the pushing future owes a notification for. */
  lemma CommitItems(s: Async, t: nat)
    requires AEnabled(s, Within(Commit(t, true)), false)
    ensures ItemsKept(AApply(s, Within(Commit(t, true)), false))
  {
    var s' := AApply(s, Within(Commit(t, true)), false);
    LandedMoves(s.base.threads, t, s'.base.threads[t]);
    hide SomeoneLanded, SomeonePushed, SomeoneCloses, Settling, Waits;
  }

  lemma SeekItems(s: Async)
    requires ItemsKept(s) && Linked(s) && Inv(s.base) && AEnabled(s, Within(Seek(0, true)), false)
    ensures ItemsKept(AApply(s, Within(Seek(0, true)), false))
  {
    hide Inv, SomeoneLanded, SomeonePushed, SomeoneCloses, Settling, Waits, LeastFrom;
    hide ThreadsLinked, RoomLinked, GuardsLinked, OneConsumer;
    if 0 !in Apply(s.base, Seek(0, true)).calls {
      ReserveNoneIsEmpty(s.base, 0);
    }
  }

  lemma SettleItems(s: Async, g: nat)
    requires Linked(s) && AEnabled(s, Within(SettleAck(g)), false)
    ensures ItemsKept(AApply(s, Within(SettleAck(g)), false))
  {
    var s' := AApply(s, Within(SettleAck(g)), false);
    assert g in Settling(s'.base.guards);
    hide SomeoneLanded, SomeonePushed, SomeoneCloses, Settling, Waits;
  }

  /** The other steps inside the queue make nothing reservable and leave every debt. */
  lemma QueueItems(s: Async, b: Action)
    requires ItemsKept(s) && Linked(s) && AEnabled(s, Within(b), false)
    requires b.Take? || b.BeginAck? || b.Delete?
    ensures ItemsKept(AApply(s, Within(b), false))
  {
    SettlingStays(s.base, b);
    hide Linked, SomeoneLanded, SomeonePushed, SomeoneCloses, Settling, Waits;
  }

  lemma SettlingStays(base: State, b: Action)
    requires Enabled(base, b) && (b.Take? || b.BeginAck? || b.Delete?)
    ensures Settling(base.guards) <= Settling(Apply(base, b).guards)
  {
  }

  lemma WithinItems(s: Async, b: Action)
    requires ItemsKept(s) && Linked(s) && Inv(s.base) && AEnabled(s, Within(b), false)
    ensures ItemsKept(AApply(s, Within(b), false))
  {
    hide ItemsKept, Inv, AApply;
    match b
    case Commit(t, ok) => CommitItems(s, t);
    case Seek(c, ok) => SeekItems(s);
    case SettleAck(g) => SettleItems(s, g);
    case GiveBack(t) => NoFault(s, b);
    case Release(g) => NoFault(s, b);
    case _ => QueueItems(s, b);
  }

  lemma NoFault(s: Async, b: Action)
    requires Linked(s) && (b.GiveBack? || b.Release?)
    ensures !AEnabled(s, Within(b), false)
  {
  }

  /** A notification reaches a reserve that waits: nobody else is registered. */
  lemma TellReserve(s: Async)
    requires Linked(s) && Sound(s.items)
    ensures !Waits(NotifyOne(s.items), 0) && !Waits(NotifyWaiters(s.items), 0)
  {
    NotifyOneKeeps(s.items);
    NotifyWaitersKeeps(s.items);
    if s.items.queue != [] {
      assert Waits(s.items, s.items.queue[0]);
    }
    if Waits(s.items, 0) {
      assert 0 in s.items.queue;
    }
  }

  lemma TellItemsSteps(s: Async, a: AAction)
    requires Linked(s) && Sound(s.items) && AEnabled(s, a, false)
    requires a.TellItems? || a.AckItems? || a.NackItems? || a.CloseItems?
    ensures ItemsKept(AApply(s, a, false))
  {
    hide Linked, Sound, Waits, NotifyOne, NotifyWaiters, Missed, ItemsOwed, OneConsumer, Apply;
    TellReserve(s);
  }

  /** A debt passed on is still owed. */
  lemma OwingItems(s: Async, a: AAction)
    requires AEnabled(s, a, false)
    requires a.PushOk? || a.AckOk? || a.AckRoom? || a.Nack? || a.CloseQueue? || a.CloseWoke? || a.CloseRoom?
    ensures ItemsKept(AApply(s, a, false))
  {
    hide Missed, Waits, NotifyOne, NotifyWaiters;
    var s' := AApply(s, a, false);
    match a
    case PushOk(t) => PushedMoves(s.futures, t, s'.futures[t]);
    case CloseQueue(t) => SleepersMove(s.base.threads, t, Closing);
    case _ =>
  }

  lemma ReserverItems(s: Async, a: AAction)
    requires ItemsKept(s) && AEnabled(s, a, false)
    requires a.StartReserve? || a.RegisterReserve? || a.CallReserve? || a.AskDrained? || a.ResumeReserve? || a.LeaveReserve?
    ensures ItemsKept(AApply(s, a, false))
  {
    hide SomeoneLanded, SomeonePushed, SomeoneCloses, Settling, Waits, Drop, Enable, Consume;
  }

  lemma ItemsStep(s: Async, a: AAction)
    requires ItemsKept(s) && Linked(s) && Inv(s.base) && Sound(s.items) && ByCountOnly(s.base.cfg) && s.base.q.len >= 0
    requires AEnabled(s, a, false)
    ensures ItemsKept(AApply(s, a, false))
  {
    hide ItemsKept, Linked, Inv, Sound, ByCountOnly, AApply;
    match a
    case StartPush(_, _, _) => FutureItems(s, a);
    case RegisterPush(_) => FutureItems(s, a);
    case LeavePush(_) => FutureItems(s, a);
    case ResumePush(_) => FutureItems(s, a);
    case Attempt(t) => AttemptItems(s, t);
    case Within(b) => WithinItems(s, b);
    case PushErr(t) => NoErr(s, t);
    case TellItems(_) => TellItemsSteps(s, a);
    case AckItems(_) => TellItemsSteps(s, a);
    case NackItems(_) => TellItemsSteps(s, a);
    case CloseItems(_) => TellItemsSteps(s, a);
    case PushOk(_) => OwingItems(s, a);
    case AckOk(_) => OwingItems(s, a);
    case AckRoom(_) => OwingItems(s, a);
    case Nack(_) => OwingItems(s, a);
    case CloseQueue(_) => OwingItems(s, a);
    case CloseWoke(_) => OwingItems(s, a);
    case CloseRoom(_) => OwingItems(s, a);
    case _ => ReserverItems(s, a);
  }

  // ---- the links ----

  lemma SoundStep(s: Async, a: AAction)
    requires Linked(s) && Sound(s.room) && Sound(s.items) && AEnabled(s, a, false)
    ensures Sound(AApply(s, a, false).room) && Sound(AApply(s, a, false).items)
  {
    hide Sound, Enable, NotifyOne, NotifyWaiters, Consume, Drop, Apply, ThreadsLinked, GuardsLinked;
    match a
    case RegisterPush(t) => EnableKeeps(s.room, t);
    case TellItems(_) => NotifyOneKeeps(s.items);
    case LeavePush(t) => DropKeeps(s.room, t);
    case ResumePush(t) => ConsumeKeeps(s.room, t);
    case RegisterReserve => EnableKeeps(s.items, 0);
    case ResumeReserve => ConsumeKeeps(s.items, 0);
    case LeaveReserve => DropKeeps(s.items, 0);
    case AckRoom(_) => NotifyOneKeeps(s.room);
    case AckItems(_) => NotifyOneKeeps(s.items);
    case NackItems(_) => NotifyOneKeeps(s.items);
    case CloseRoom(_) => NotifyWaitersKeeps(s.room);
    case CloseItems(_) => NotifyWaitersKeeps(s.items);
    case _ =>
  }

  /** No operation registers a waiter but `Enable`. */
  lemma RegsOnly(n: Notify, w: nat)
    requires Sound(n)
    ensures Enable(n, w).regs.Keys == n.regs.Keys + {w} && NotifyOne(n).regs.Keys == n.regs.Keys
    ensures NotifyWaiters(n).regs.Keys == n.regs.Keys
    ensures Consume(n, w).regs.Keys == n.regs.Keys - {w} && Drop(n, w).regs.Keys == n.regs.Keys - {w}
  {
    if n.queue != [] {
      assert Waits(n, n.queue[0]);
    }
    WithoutMeans(n.queue, w);
    var rest := Notify(Without(n.queue, w), n.permit, n.regs - {w});
    if rest.queue != [] {
      assert rest.queue[0] in rest.queue;
      assert Waits(n, rest.queue[0]);
    }
  }

  /** Which part of the queue's state each of its steps can touch. */
  lemma Touches(base: State, b: Action)
    requires Enabled(base, b)
    ensures b.Return? || b.NotifyRoom? || b.NotifyAll? || b.Close? || b.Arrive? || b.Recheck? || b.Commit? || b.GiveBack? || b.Spurious?
            || b.NotifyAck? || Apply(base, b).threads == base.threads
    ensures b.BeginReserve? || b.Seek? || b.Take? || Apply(base, b).calls == base.calls
    ensures b.Take? || b.BeginAck? || b.Delete? || b.SettleAck? || b.Release? || b.NotifyAck?
            || Apply(base, b).guards == base.guards
    ensures b.NotifyAck? && b.w.None? ==> Apply(base, b).threads == base.threads
  {
    hide Admits, Wakes, Jump, LeastFrom, Rouse;
  }

  predicate OfPush(a: AAction) {
    || a.StartPush? || a.RegisterPush? || a.Attempt? || a.PushOk? || a.PushErr?
    || a.TellItems? || a.LeavePush? || a.ResumePush?
  }

  lemma PushThreads(s: Async, a: AAction)
    requires ThreadsLinked(s.base.threads, s.futures) && ByCountOnly(s.base.cfg) && s.base.q.len >= 0
    requires AEnabled(s, a, false) && OfPush(a)
    ensures ThreadsLinked(AApply(s, a, false).base.threads, AApply(s, a, false).futures)
  {
    hide Enable, NotifyOne, Consume, Drop, Rouse, Wakes;
    if a.Attempt? {
      AttemptMeans(s, a.t);
      hide DoAttempt;
    }
    hide ByCountOnly;
  }

  lemma OtherThreads(s: Async, a: AAction)
    requires ThreadsLinked(s.base.threads, s.futures) && AEnabled(s, a, false) && !OfPush(a)
    ensures ThreadsLinked(AApply(s, a, false).base.threads, AApply(s, a, false).futures)
  {
    hide Enable, NotifyOne, NotifyWaiters, Consume, Drop, Wakes;
    match a
    case Within(b) => WithinThreads(s, b); hide Apply, ThreadsLinked;
    case CloseQueue(_) =>
    case CloseWoke(_) =>
    case AckOk(g) => Touches(s.base, NotifyAck(g, None)); hide Apply;
    case Nack(g) => Touches(s.base, Release(g)); hide Apply;
    case CallReserve => Touches(s.base, BeginReserve(0)); hide Apply;
    case _ => hide Apply;
  }

  lemma WithinThreads(s: Async, b: Action)
    requires ThreadsLinked(s.base.threads, s.futures) && AEnabled(s, Within(b), false)
    ensures ThreadsLinked(Apply(s.base, b).threads, s.futures)
  {
    if !b.Commit? {
      Touches(s.base, b);
      hide Apply;
    }
  }

  lemma LinkThreads(s: Async, a: AAction)
    requires Linked(s) && ByCountOnly(s.base.cfg) && s.base.q.len >= 0 && AEnabled(s, a, false)
    ensures ThreadsLinked(AApply(s, a, false).base.threads, AApply(s, a, false).futures)
  {
    hide ThreadsLinked, RoomLinked, ReserverLinked, GuardsLinked, AApply, AEnabled;
    if OfPush(a) {
      PushThreads(s, a);
    } else {
      OtherThreads(s, a);
    }
  }

  lemma PushRoom(s: Async, a: AAction)
    requires RoomLinked(s.room, s.futures) && Sound(s.room) && AEnabled(s, a, false) && OfPush(a)
    ensures RoomLinked(AApply(s, a, false).room, AApply(s, a, false).futures)
  {
    hide RoomLinked, Sound, Waits, Apply, Enable, NotifyOne, Consume, Drop;
    match a
    case StartPush(t, value, wait) => RoomStarts(s.room, s.futures, t, Future(value, wait, false, if wait then Waking else Trying));
    case RegisterPush(t) =>
      RegsOnly(s.room, t);
      RoomGrows(s.room, s.futures, Enable(s.room, t), t);
    case LeavePush(t) =>
      RegsOnly(s.room, t);
      RoomShrinks(s.room, s.futures, Drop(s.room, t), t, s.futures[t].(at := Waking));
    case ResumePush(t) =>
      RegsOnly(s.room, t);
      RoomShrinks(s.room, s.futures, Consume(s.room, t), t, AApply(s, a, false).futures[t]);
    case Attempt(t) =>
      AttemptMoves(s, t);
      RoomStays(s.room, s.futures, t, DoAttempt(s, t).futures[t]);
    case PushOk(t) => RoomStays(s.room, s.futures, t, AApply(s, a, false).futures[t]);
    case PushErr(t) => RoomStays(s.room, s.futures, t, AApply(s, a, false).futures[t]);
    case TellItems(t) => RoomStays(s.room, s.futures, t, AApply(s, a, false).futures[t]);
  }

  /** A registered push goes on, still registered. */
  lemma RoomStays(room: Notify, futures: map<nat, Future>, t: nat, k: Future)
    requires RoomLinked(room, futures) && t in futures && !futures[t].at.Waking? && !k.at.Waking?
    requires k.wait == futures[t].wait && (k.at.Waiting? ==> k.wait)
    ensures RoomLinked(room, futures[t := k])
  {
  }

  lemma RoomStarts(room: Notify, futures: map<nat, Future>, t: nat, k: Future)
    requires RoomLinked(room, futures) && t !in futures && k.at == if k.wait then Waking else Trying
    ensures RoomLinked(room, futures[t := k])
  {
  }

  lemma RoomGrows(room: Notify, futures: map<nat, Future>, room': Notify, t: nat)
    requires RoomLinked(room, futures) && room'.regs.Keys == room.regs.Keys + {t} && t in futures
    ensures RoomLinked(room', futures[t := futures[t].(at := Trying)])
  {
    forall w
      ensures w in room'.regs <==> w in room.regs || w == t
    {
      assert w in room'.regs <==> w in room'.regs.Keys;
    }
  }

  lemma RoomShrinks(room: Notify, futures: map<nat, Future>, room': Notify, t: nat, k: Future)
    requires RoomLinked(room, futures) && room'.regs.Keys == room.regs.Keys - {t} && k.at.Waking?
    ensures RoomLinked(room', futures - {t}) && RoomLinked(room', futures[t := k])
  {
    forall w
      ensures w in room'.regs <==> w in room.regs && w != t
    {
      assert w in room'.regs <==> w in room'.regs.Keys;
    }
  }

  lemma AttemptMoves(s: Async, t: nat)
    requires AEnabled(s, Attempt(t), false)
    ensures DoAttempt(s, t).room == s.room
    ensures exists at :: DoAttempt(s, t).futures == Moved(s, t, at) && at != Waking && (at == Waiting ==> s.futures[t].wait)
  {
    assert DoAttempt(s, t).futures == Moved(s, t, DoAttempt(s, t).futures[t].at);
  }

  lemma OtherRoom(s: Async, a: AAction)
    requires AEnabled(s, a, false) && !OfPush(a)
    ensures var s' := AApply(s, a, false);
            && s'.futures == s.futures
            && (s'.room == s.room || s'.room == NotifyOne(s.room) || s'.room == NotifyWaiters(s.room))
  {
    hide Apply, Enable, NotifyOne, NotifyWaiters, Consume, Drop, Waits, OneConsumer;
  }

  lemma LinkRoom(s: Async, a: AAction)
    requires Linked(s) && Sound(s.room) && AEnabled(s, a, false)
    ensures RoomLinked(AApply(s, a, false).room, AApply(s, a, false).futures)
  {
    hide ThreadsLinked, ReserverLinked, GuardsLinked, AApply, AEnabled, NotifyOne, NotifyWaiters, Sound;
    if OfPush(a) {
      PushRoom(s, a);
    } else {
      OtherRoom(s, a);
      RegsOnly(s.room, 0);
    }
  }

  lemma WithinReserver(s: Async, b: Action)
    requires ReserverLinked(s.items, s.base.calls, s.reserver) && AEnabled(s, Within(b), false)
    ensures var s' := DoWithin(s, b); ReserverLinked(s'.items, s'.base.calls, s'.reserver)
  {
    if !b.Seek? && !b.Take? {
      Touches(s.base, b);
      hide Apply;
    }
    hide LeastFrom;
  }

  /** Outside the queue's own steps only a few actions touch its calls and guards. */
  lemma FacadeTouches(s: Async, a: AAction)
    requires AEnabled(s, a, false) && !a.Within?
    ensures a.CallReserve? || AApply(s, a, false).base.calls == s.base.calls
    ensures a.AckOk? || a.Nack? || AApply(s, a, false).base.guards == s.base.guards
  {
    BaseMoves(s, a, false);
    hide AEnabled, AApply, Apply;
    if Drives(s, a) != [] {
      Touches(s.base, Drives(s, a)[0]);
    }
  }

  predicate OfReserve(a: AAction) {
    a.StartReserve? || a.RegisterReserve? || a.CallReserve? || a.AskDrained? || a.ResumeReserve? || a.LeaveReserve?
  }

  lemma ReserveReserver(s: Async, a: AAction)
    requires ReserverLinked(s.items, s.base.calls, s.reserver) && Sound(s.items) && AEnabled(s, a, false) && OfReserve(a)
    ensures var s' := AApply(s, a, false); ReserverLinked(s'.items, s'.base.calls, s'.reserver)
  {
    hide Enable, NotifyOne, Consume, Drop, Sound, Waits, OneConsumer, Reservable;
    if a.CallReserve? {
      CallMade(s.base);
    } else {
      RegsOnly(s.items, 0);
    }
    hide Apply;
  }

  lemma CallMade(base: State)
    requires Enabled(base, BeginReserve(0))
    ensures Apply(base, BeginReserve(0)).calls.Keys == base.calls.Keys + {0}
  {
  }

  lemma OtherReserver(s: Async, a: AAction)
    requires AEnabled(s, a, false) && !OfReserve(a) && !a.Within?
    ensures var s' := AApply(s, a, false);
            && s'.reserver == s.reserver && s'.base.calls == s.base.calls
            && (s'.items == s.items || s'.items == NotifyOne(s.items) || s'.items == NotifyWaiters(s.items))
  {
    FacadeTouches(s, a);
    hide Apply, Enable, NotifyOne, NotifyWaiters, Consume, Drop, Waits, OneConsumer;
  }

  lemma LinkReserver(s: Async, a: AAction)
    requires Linked(s) && Sound(s.items) && AEnabled(s, a, false)
    ensures var s' := AApply(s, a, false); ReserverLinked(s'.items, s'.base.calls, s'.reserver)
  {
    hide ThreadsLinked, RoomLinked, GuardsLinked, AEnabled, NotifyOne, NotifyWaiters, Sound, Apply, DoWithin;
    if a.Within? {
      WithinReserver(s, a.b);
    } else if OfReserve(a) {
      ReserveReserver(s, a);
      hide AApply;
    } else {
      OtherReserver(s, a);
      RegsOnly(s.items, 0);
      hide AApply;
    }
  }

  lemma WithinGuards(s: Async, b: Action)
    requires GuardsLinked(s.base.guards, s.ackRoom + s.ackItems + s.nacks) && AEnabled(s, Within(b), false)
    ensures GuardsLinked(Apply(s.base, b).guards, s.ackRoom + s.ackItems + s.nacks)
  {
    Touches(s.base, b);
    hide LeastFrom, Jump, Mark, Put, Erase, Admits;
  }

  lemma DoneGuards(s: Async, a: AAction)
    requires GuardsLinked(s.base.guards, s.ackRoom + s.ackItems + s.nacks) && AEnabled(s, a, false) && (a.AckOk? || a.Nack?)
    ensures var s' := AApply(s, a, false); GuardsLinked(s'.base.guards, s'.ackRoom + s'.ackItems + s'.nacks)
  {
    hide Wakes, Wake;
  }

  lemma OtherGuards(s: Async, a: AAction)
    requires AEnabled(s, a, false) && !a.Within? && !a.AckOk? && !a.Nack?
    ensures var s' := AApply(s, a, false);
            && s'.base.guards == s.base.guards
            && s'.ackRoom + s'.ackItems + s'.nacks <= s.ackRoom + s.ackItems + s.nacks
  {
    FacadeTouches(s, a);
    hide Apply, Enable, NotifyOne, NotifyWaiters, Consume, Drop, Waits, OneConsumer;
  }

  lemma LinkGuards(s: Async, a: AAction)
    requires Linked(s) && AEnabled(s, a, false)
    ensures var s' := AApply(s, a, false); GuardsLinked(s'.base.guards, s'.ackRoom + s'.ackItems + s'.nacks)
  {
    hide ThreadsLinked, RoomLinked, ReserverLinked, AEnabled, Apply;
    if a.Within? {
      WithinGuards(s, a.b);
      hide GuardsLinked;
    } else if a.AckOk? || a.Nack? {
      DoneGuards(s, a);
      hide GuardsLinked, AApply;
    } else {
      OtherGuards(s, a);
      hide AApply;
    }
  }

  lemma LinkStep(s: Async, a: AAction)
    requires Linked(s) && Sound(s.room) && Sound(s.items) && ByCountOnly(s.base.cfg) && s.base.q.len >= 0
    requires AEnabled(s, a, false)
    ensures Linked(AApply(s, a, false))
  {
    LinkThreads(s, a);
    LinkRoom(s, a);
    LinkReserver(s, a);
    LinkGuards(s, a);
    hide ThreadsLinked, RoomLinked, ReserverLinked, GuardsLinked, AApply;
  }
}
