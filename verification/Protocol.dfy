/**
 The queue as a step relation: the in-memory cursors and counters behind one mutex, the
 store they are committed to, and one program counter for every thread inside a call.

 Every action is what one thread does between two points where it holds no lock, so a
 list of actions is an interleaving. A commit is one action that succeeds or fails; a
 failed one changes nothing. A value in the store carries the id of the push that wrote
 it. Ids, and everything under `h`, only record what happened: no action reads them.
 */
module Protocol {
  import opened Base

  datatype Item = Item(id: nat, value: Bytes)

  datatype Config = Config(capacity: nat, maxBytes: nat, durable: bool, ackDurable: bool, group: bool)

  datatype Inner = Inner(
    tail: nat, head: nat, ackedAbove: set<nat>, len: int, bytes: int, reserved: set<nat>, closed: bool)

  /**
   The entries of the store. `live` is what the process sees; `lag[q]` lists what key `q`
   may hold after a power loss, where that can differ from `live`.
   */
  datatype Disk = Disk(live: map<nat, Item>, lag: map<nat, set<Option<Item>>>)

  /** Where a thread is inside `push`, `try_push` or `close`; an absent thread is in none of them. */
  datatype Pc =
    | Asleep(value: Bytes)              // waiting on `room`
    | Woken(value: Bytes)               // notified, has yet to re-check
    | Claimed(no: nat, item: Item)     // slot and seq claimed, entry not committed
    | Stored(no: nat, item: Item)      // entry committed, call yet to return
    | Failed(no: nat, item: Item)      // commit failed, slot not yet given back
    | Owes(no: nat, item: Item)        // slot given back, `notify_one` owed
    | Closing                           // closed, `notify_all` owed

  /** Where a reserved guard is: held, or part-way through `ack`. */
  datatype Phase =
    | Held
    | Acking       // ack called, delete not committed
    | Dropping     // delete failed, guard about to release
    | Deleted      // delete committed, accounting not yet settled
    | Settled      // accounting settled, `notify_one` owed

  datatype Guard = Guard(no: nat, item: Item, phase: Phase)

  /**
   A `reserve` in progress. `avail` records the entries that were live and unreserved when
   it began, `seeks` how many seeks it has made.
   */
  datatype Call =
    | Seeking(cursor: nat, avail: set<nat>, seeks: nat)
    | Sought(no: nat, item: Item, avail: set<nat>, seeks: nat)

  /** What has become of a seq: a push in flight, a live entry, and so on, each with its owner. */
  datatype Stage = InFlight(t: nat) | Live | Broken(t: nat) | Removed(g: nat) | Void | Acked

  datatype Life = Life(item: Item, stage: Stage)

  datatype History = History(
    book: map<nat, Life>,        // every seq recovered or claimed in this session
    head0: nat, len0: nat, bytes0: nat,
    nextId: nat,
    promised: set<Item>,         // pushes that returned Ok under a durable policy
    refused: set<nat>,           // pushes that returned a store error
    deleted: set<nat>,           // pushes whose delete committed, or was under way when power was lost
    gone: set<nat>,              // pushes whose delete has been durably committed
    synced: set<Item>)           // items that were in a successful durable commit

  datatype State = State(
    cfg: Config, q: Inner, disk: Disk,
    threads: map<nat, Pc>, guards: map<nat, Guard>, calls: map<nat, Call>, h: History)

  // ---- pieces shared with the sequential code ----

  predicate Admits(cfg: Config, len: int, bytes: int, v: nat) {
    len < cfg.capacity && (len == 0 || SaturatingAdd(bytes, v) <= cfg.maxBytes)
  }

  /** The exact test: room for one more, and for its bytes unless nothing bounds them or the queue is empty. */
  lemma AdmitsMeans(cfg: Config, len: int, bytes: int, v: nat)
    ensures Admits(cfg, len, bytes, v) <==>
              len < cfg.capacity && (len == 0 || cfg.maxBytes >= USIZE_MAX || bytes + v <= cfg.maxBytes)
  {
  }

  /** Drop the contiguous run of acked seqs starting at `next`. */
  function Jump(next: nat, above: set<nat>): (r: (nat, set<nat>))
    decreases above
  {
    if next in above then Jump(next + 1, above - {next}) else (next, above)
  }

  lemma {:induction false} JumpMeans(next: nat, above: set<nat>)
    ensures var r := Jump(next, above);
            && next <= r.0
            && r.0 !in r.1
            && r.1 <= above
            && (forall k :: k in above <==> k in r.1 || (next <= k < r.0 && k in above))
            && (forall k :: next <= k < r.0 ==> k in above && k !in r.1)
    decreases above
  {
    if next in above {
      JumpMeans(next + 1, above - {next});
      var r := Jump(next + 1, above - {next});
      forall k | next <= k < r.0
        ensures k in above && k !in r.1
      {
        if k != next {
          assert k in above - {next};
        }
      }
    }
  }

  /** The accounting an ack settles under the lock. */
  function AfterAck(q: Inner, no: nat, size: nat): Inner {
    var (head, above) :=
      if no == q.head then Jump(q.head + 1, q.ackedAbove) else (q.head, q.ackedAbove + {no});
    q.(reserved := q.reserved - {no}, len := q.len - 1, bytes := q.bytes - size,
    head := head, ackedAbove := above)
  }

  /** After an ack exactly the acked seq joins those acked before, and `head` is the first not among them. */
  lemma AckedAre(q: Inner, no: nat, size: nat)
    requires q.head <= no && no !in q.ackedAbove && forall k :: k in q.ackedAbove ==> q.head < k
    ensures var q' := AfterAck(q, no, size);
            && (forall k: nat :: k < q'.head || k in q'.ackedAbove <==> k < q.head || k in q.ackedAbove || k == no)
            && (forall k :: k in q'.ackedAbove ==> q'.head < k)
  {
    JumpMeans(q.head + 1, q.ackedAbove);
  }

  /** The accounting a producer does under the lock when its value is admitted. */
  function AfterClaim(q: Inner, size: nat): Inner {
    q.(tail := q.tail + 1, len := q.len + 1, bytes := q.bytes + size)
  }

  /** The cursors and counters `open` derives from the stored entries. */
  function Recovered(entries: map<nat, Bytes>): Inner {
    var tail := if entries == map[] then 0 else Max(entries.Keys) + 1;
    var head := if entries == map[] then tail else Min(entries.Keys);
    Inner(tail, head, {}, |entries|, SumTo(entries, tail), {}, false)
  }

  function Values(live: map<nat, Item>): (m: map<nat, Bytes>)
    ensures m.Keys == live.Keys
  {
    map k | k in live :: live[k].value
  }

  // ---- the store ----

  /** What key `k` may hold after a power loss. */
  function Candidates(d: Disk, k: nat): set<Option<Item>> {
    if k in d.lag then d.lag[k] else {Lookup(d.live, k)}
  }

  /** What the process sees is among what the disk may hold. */
  predicate LagHolds(d: Disk) {
    forall k :: k in d.lag ==> Lookup(d.live, k) in d.lag[k]
  }

  function Put(d: Disk, k: nat, i: Item, durable: bool): Disk {
    Disk(d.live[k := i], if durable then d.lag - {k} else d.lag[k := Candidates(d, k) + {Some(i)}])
  }

  function Erase(d: Disk, k: nat, durable: bool): Disk {
    Disk(d.live - {k}, if durable then d.lag - {k} else d.lag[k := Candidates(d, k) + {None}])
  }

  // ---- actions ----

  datatype Action =
    | Arrive(t: nat, value: Bytes, wait: bool)  // push (wait) or try_push takes the lock
    | Recheck(t: nat)                           // a woken push re-tests
    | Commit(t: nat, ok: bool)                  // the store commit of a claimed entry
    | Return(t: nat)                            // push returns Ok
    | GiveBack(t: nat)                          // a failed push returns its slot
    | NotifyRoom(t: nat, w: Option<nat>)        // ... and notifies; push returns Err
    | Close(t: nat)
    | NotifyAll(t: nat)
    | Spurious(t: nat)                          // a condvar may wake a waiter unasked
    | BeginReserve(c: nat)
    | Seek(c: nat, ok: bool)
    | Take(c: nat, g: nat)
    | BeginAck(g: nat)
    | Delete(g: nat, ok: bool)
    | Release(g: nat)                           // nack, drop, or the drop after a failed ack
    | SettleAck(g: nat)
    | NotifyAck(g: nat, w: Option<nat>)

  predicate IsAsleep(s: State, t: nat) {
    t in s.threads && s.threads[t].Asleep?
  }

  /** `notify_one` wakes some sleeper, or nobody when nobody sleeps. */
  predicate Wakes(s: State, w: Option<nat>) {
    match w
    case Some(t) => IsAsleep(s, t)
    case None => forall t :: t in s.threads ==> !s.threads[t].Asleep?
  }

  function Wake(threads: map<nat, Pc>, w: Option<nat>): map<nat, Pc> {
    if w.Some? && w.value in threads && threads[w.value].Asleep? then
      threads[w.value := Woken(threads[w.value].value)]
    else
      threads
  }

  predicate CanClaim(s: State, value: Bytes) {
    s.q.tail < U64_MAX && |value| <= USIZE_MAX
  }

  predicate Enabled(s: State, a: Action) {
    match a
    case Arrive(t, value, wait) => t !in s.threads && CanClaim(s, value)
    case Recheck(t) => t in s.threads && s.threads[t].Woken? && CanClaim(s, s.threads[t].value)
    case Commit(t, ok) => t in s.threads && s.threads[t].Claimed?
    case Return(t) => t in s.threads && s.threads[t].Stored?
    case GiveBack(t) => t in s.threads && s.threads[t].Failed?
    case NotifyRoom(t, w) => t in s.threads && s.threads[t].Owes? && Wakes(s, w)
    case Close(t) => t !in s.threads
    case NotifyAll(t) => t in s.threads && s.threads[t].Closing?
    case Spurious(t) => IsAsleep(s, t)
    case BeginReserve(c) => c !in s.calls
    case Seek(c, ok) => c in s.calls && s.calls[c].Seeking?
    case Take(c, g) => c in s.calls && s.calls[c].Sought? && g !in s.guards
    case BeginAck(g) => g in s.guards && s.guards[g].phase == Held
    case Delete(g, ok) => g in s.guards && s.guards[g].phase == Acking
    case Release(g) => g in s.guards && (s.guards[g].phase == Held || s.guards[g].phase == Dropping)
    case SettleAck(g) => g in s.guards && s.guards[g].phase == Deleted
    case NotifyAck(g, w) => g in s.guards && s.guards[g].phase == Settled && Wakes(s, w)
  }

  /** No `reserve`, `ack` or `nack` is under way. */
  predicate ConsumerIdle(s: State) {
    s.calls == map[] && forall g :: g in s.guards ==> s.guards[g].phase == Held
  }

  /** One consumer thread: it starts an operation only when it is not inside another. */
  predicate OneConsumer(s: State, a: Action) {
    match a
    case BeginReserve(c) => ConsumerIdle(s)
    case BeginAck(g) => ConsumerIdle(s)
    case Release(g) => g in s.guards && s.guards[g].phase == Held ==> ConsumerIdle(s)
    case _ => true
  }

  function Mark(book: map<nat, Life>, k: nat, stage: Stage): map<nat, Life> {
    if k in book then book[k := book[k].(stage := stage)] else book
  }

  function Claim(s: State, t: nat, value: Bytes): State {
    var no := s.q.tail;
    var item := Item(s.h.nextId, value);
    s.(q := AfterClaim(s.q, |value|),
    threads := s.threads[t := Claimed(no, item)],
    h := s.h.(book := s.h.book[no := Life(item, InFlight(t))], nextId := s.h.nextId + 1))
  }

  /** The test `push` and `try_push` make under the lock. */
  function Try(s: State, t: nat, value: Bytes, wait: bool): State {
    if !s.q.closed && Admits(s.cfg, s.q.len, s.q.bytes, |value|) then
      Claim(s, t, value)
    else if !s.q.closed && wait then
      s.(threads := s.threads[t := Asleep(value)])
    else
      s.(threads := s.threads - {t})
  }

  function DoCommit(s: State, t: nat, ok: bool): State
    requires Enabled(s, Commit(t, ok))
  {
    var Claimed(no, item) := s.threads[t];
    if ok then
      s.(disk := Put(s.disk, no, item, s.cfg.durable),
      threads := s.threads[t := Stored(no, item)],
      h := s.h.(book := Mark(s.h.book, no, Live),
      synced := if s.cfg.durable then s.h.synced + {item} else s.h.synced))
    else
      s.(threads := s.threads[t := Failed(no, item)],
      h := s.h.(book := Mark(s.h.book, no, Broken(t))))
  }

  function DoReturn(s: State, t: nat): State
    requires Enabled(s, Return(t))
  {
    var item := s.threads[t].item;
    s.(threads := s.threads - {t},
    h := if s.cfg.durable then s.h.(promised := s.h.promised + {item}) else s.h)
  }

  function DoGiveBack(s: State, t: nat): State
    requires Enabled(s, GiveBack(t))
  {
    var Failed(no, item) := s.threads[t];
    s.(q := s.q.(len := s.q.len - 1, bytes := s.q.bytes - |item.value|),
    threads := s.threads[t := Owes(no, item)],
    h := s.h.(book := Mark(s.h.book, no, Void)))
  }

  function Rouse(threads: map<nat, Pc>): (r: map<nat, Pc>) {
    map t | t in threads :: if threads[t].Asleep? then Woken(threads[t].value) else threads[t]
  }

  function DoSeek(s: State, c: nat, ok: bool): State
    requires Enabled(s, Seek(c, ok))
  {
    var Seeking(cursor, avail, seeks) := s.calls[c];
    var found := LeastFrom(s.disk.live.Keys, cursor);
    if ok && found.Some? then
      s.(calls := s.calls[c := Sought(found.value, s.disk.live[found.value], avail, seeks + 1)])
    else
      s.(calls := s.calls - {c})
  }

  function DoTake(s: State, c: nat, g: nat): State
    requires Enabled(s, Take(c, g))
  {
    var Sought(no, item, avail, seeks) := s.calls[c];
    if no in s.q.reserved then
      s.(calls := s.calls[c := Seeking(no + 1, avail, seeks)])
    else
      s.(q := s.q.(reserved := s.q.reserved + {no}),
      calls := s.calls - {c},
      guards := s.guards[g := Guard(no, item, Held)])
  }

  function DoDelete(s: State, g: nat, ok: bool): State
    requires Enabled(s, Delete(g, ok))
  {
    var Guard(no, item, _) := s.guards[g];
    if ok then
      s.(disk := Erase(s.disk, no, s.cfg.ackDurable),
      guards := s.guards[g := Guard(no, item, Deleted)],
      h := s.h.(book := Mark(s.h.book, no, Removed(g)), deleted := s.h.deleted + {item.id},
      gone := if s.cfg.ackDurable then s.h.gone + {item.id} else s.h.gone))
    else
      s.(guards := s.guards[g := Guard(no, item, Dropping)])
  }

  function DoSettleAck(s: State, g: nat): State
    requires Enabled(s, SettleAck(g))
  {
    var Guard(no, item, _) := s.guards[g];
    s.(q := AfterAck(s.q, no, |item.value|),
    guards := s.guards[g := Guard(no, item, Settled)],
    h := s.h.(book := Mark(s.h.book, no, Acked)))
  }

  /** The entries a `reserve` that begins now could hand out. */
  function Reservable(s: State): set<nat> {
    s.disk.live.Keys - s.q.reserved
  }

  function Apply(s: State, a: Action): State
    requires Enabled(s, a)
  {
    match a
    case Arrive(t, value, wait) => Try(s, t, value, wait)
    case Recheck(t) => Try(s, t, s.threads[t].value, true)
    case Commit(t, ok) => DoCommit(s, t, ok)
    case Return(t) => DoReturn(s, t)
    case GiveBack(t) => DoGiveBack(s, t)
    case NotifyRoom(t, w) =>
      s.(threads := Wake(s.threads - {t}, w), h := s.h.(refused := s.h.refused + {s.threads[t].item.id}))
    case Close(t) => s.(q := s.q.(closed := true), threads := s.threads[t := Closing])
    case NotifyAll(t) => s.(threads := Rouse(s.threads - {t}))
    case Spurious(t) => s.(threads := Wake(s.threads, Some(t)))
    case BeginReserve(c) => s.(calls := s.calls[c := Seeking(s.q.head, Reservable(s), 0)])
    case Seek(c, ok) => DoSeek(s, c, ok)
    case Take(c, g) => DoTake(s, c, g)
    case BeginAck(g) => s.(guards := s.guards[g := s.guards[g].(phase := Acking)])
    case Delete(g, ok) => DoDelete(s, g, ok)
    case Release(g) =>
      s.(q := s.q.(reserved := s.q.reserved - {s.guards[g].no}), guards := s.guards - {g})
    case SettleAck(g) => DoSettleAck(s, g)
    case NotifyAck(g, w) => s.(guards := s.guards - {g}, threads := Wake(s.threads, w))
  }

  // ---- runs ----

  /** `a` can happen in `s`; `serial` says whether the consumer side is a single thread. */
  predicate Allowed(s: State, a: Action, serial: bool) {
    Enabled(s, a) && (serial ==> OneConsumer(s, a))
  }

  predicate CanRun(s: State, acts: seq<Action>, serial: bool)
    decreases acts
  {
    acts == [] || (Allowed(s, acts[0], serial) && CanRun(Apply(s, acts[0]), acts[1..], serial))
  }

  function Run(s: State, acts: seq<Action>, serial: bool): State
    requires CanRun(s, acts, serial)
    decreases acts
  {
    if acts == [] then s else Run(Apply(s, acts[0]), acts[1..], serial)
  }

  lemma {:induction false} RunAppend(s: State, a: seq<Action>, b: seq<Action>, serial: bool)
    requires CanRun(s, a, serial) && CanRun(Run(s, a, serial), b, serial)
    ensures CanRun(s, a + b, serial) && Run(s, a + b, serial) == Run(Run(s, a, serial), b, serial)
    decreases a
  {
    if a == [] {
      assert a + b == b;
    } else {
      RunAppend(Apply(s, a[0]), a[1..], b, serial);
      assert (a + b)[1..] == a[1..] + b && (a + b)[0] == a[0];
    }
  }

  /** No push's commit fails. */
  predicate NoneFails(acts: seq<Action>) {
    forall a :: a in acts && a.Commit? ==> a.ok
  }

  ghost predicate Reaches(s: State, acts: seq<Action>, s': State, serial: bool) {
    CanRun(s, acts, serial) && Run(s, acts, serial) == s'
  }

  lemma Extend(s: State, acts: seq<Action>, s': State, a: Action, serial: bool)
    requires Reaches(s, acts, s', serial) && Allowed(s', a, serial)
    ensures Reaches(s, acts + [a], Apply(s', a), serial)
  {
    var s1 := Apply(s', a);
    assert [a][0] == a && [a][1..] == [];
    assert CanRun(s1, [], serial) && Run(s1, [], serial) == s1;
    assert CanRun(s', [a], serial) && Run(s', [a], serial) == Run(s1, [a][1..], serial);
    RunAppend(s, acts, [a], serial);
  }

  /** What is carried from one session to the next. */
  function Reopened(h: History, live: map<nat, Item>, q: Inner): History
    requires q.len >= 0 && q.bytes >= 0
  {
    h.(book := map k | k in live :: Life(live[k], Live), head0 := q.head, len0 := q.len, bytes0 := q.bytes)
  }

  function NoHistory(): History {
    History(map[], 0, 0, 0, 0, {}, {}, {}, {}, {})
  }

  /** A session opened on `disk`. */
  function Open(cfg: Config, disk: Disk, h: History): State {
    var q := Recovered(Values(disk.live));
    State(cfg, q, disk, map[], map[], map[], Reopened(h, disk.live, q))
  }
}
