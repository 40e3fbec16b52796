/**
 The async wakeup primitive: registered waiters in the order they came, one stored
 permit, and a wake passed on when a waiter that was told is dropped.
 */
module Notify {
  import opened Base

  datatype Reg =
    | Queued   // registered, nothing received
    | Told     // received a `notify_one`, not yet awaited
    | Done     // took the stored permit, or was reached by `notify_waiters`

  datatype Notify = Notify(queue: seq<nat>, permit: bool, regs: map<nat, Reg>)

  const Quiet := Notify([], false, map[])

  predicate Waits(n: Notify, w: nat) {
    w in n.regs && n.regs[w] == Queued
  }

  /** The queue holds each waiting registration once, and a permit is stored only when it is empty. */
  ghost predicate Sound(n: Notify) {
    Distinct(n.queue) && (forall w :: w in n.queue <==> Waits(n, w)) && (n.permit ==> n.queue == [])
  }

  /** Register `w`, or take the stored permit. */
  function Enable(n: Notify, w: nat): Notify {
    if n.permit then Notify(n.queue, false, n.regs[w := Done])
    else Notify(n.queue + [w], false, n.regs[w := Queued])
  }

  /** Tell the oldest waiter, or store a permit. */
  function NotifyOne(n: Notify): Notify {
    if n.queue == [] then n.(permit := true)
    else Notify(n.queue[1..], n.permit, n.regs[n.queue[0] := Told])
  }

  /** Reach every waiter; store nothing. */
  function NotifyWaiters(n: Notify): Notify {
    Notify([], n.permit, map w | w in n.regs :: if n.regs[w] == Queued then Done else n.regs[w])
  }

  /** A wait that completes gives its registration up. */
  function Consume(n: Notify, w: nat): Notify {
    n.(regs := n.regs - {w})
  }

  /** Dropping a waiter leaves the queue; a wake it was told of goes to the next. */
  function Drop(n: Notify, w: nat): Notify {
    var rest := Notify(Without(n.queue, w), n.permit, n.regs - {w});
    if Lookup(n.regs, w) == Some(Told) then NotifyOne(rest) else rest
  }

  function Without(ws: seq<nat>, w: nat): seq<nat> {
    if ws == [] then []
    else if ws[0] == w then Without(ws[1..], w)
    else [ws[0]] + Without(ws[1..], w)
  }

  lemma {:induction false} WithoutMeans(ws: seq<nat>, w: nat)
    ensures forall x :: x in Without(ws, w) <==> x in ws && x != w
    ensures Distinct(ws) ==> Distinct(Without(ws, w))
  {
    if ws != [] {
      WithoutMeans(ws[1..], w);
      if Distinct(ws) {
        assert Distinct(ws[1..]) && ws[0] !in ws[1..];
      }
      assert forall x :: x in ws <==> x == ws[0] || x in ws[1..];
    }
  }

  // ---- every operation keeps it sound ----

  lemma EnableKeeps(n: Notify, w: nat)
    requires Sound(n) && w !in n.regs
    ensures Sound(Enable(n, w))
  {
    var n' := Enable(n, w);
    assert forall x :: Waits(n', x) <==> Waits(n, x) || (x == w && !n.permit);
    assert !Waits(n, w);
  }

  lemma NotifyOneKeeps(n: Notify)
    requires Sound(n)
    ensures Sound(NotifyOne(n))
    ensures forall w :: Waits(NotifyOne(n), w) <==> Waits(n, w) && w != n.queue[0]
  {
    if n.queue != [] {
      var front, n' := n.queue[0], NotifyOne(n);
      assert forall x :: x in n.queue <==> x == front || x in n.queue[1..];
      assert front !in n.queue[1..];
      assert forall x :: Waits(n', x) <==> Waits(n, x) && x != front;
    } else {
      assert forall w :: !Waits(n, w);
    }
  }

  lemma NotifyWaitersKeeps(n: Notify)
    requires Sound(n)
    ensures Sound(NotifyWaiters(n)) && forall w :: !Waits(NotifyWaiters(n), w)
  {
  }

  lemma ConsumeKeeps(n: Notify, w: nat)
    requires Sound(n) && !Waits(n, w)
    ensures Sound(Consume(n, w)) && forall x :: Waits(Consume(n, w), x) <==> Waits(n, x)
  {
    assert forall x :: Waits(Consume(n, w), x) <==> Waits(n, x);
  }

  lemma DropKeeps(n: Notify, w: nat)
    requires Sound(n)
    ensures Sound(Drop(n, w)) && w !in Drop(n, w).regs
    ensures forall x :: Waits(Drop(n, w), x) ==> Waits(n, x)
  {
    WithoutMeans(n.queue, w);
    var rest := Notify(Without(n.queue, w), n.permit, n.regs - {w});
    assert forall x :: Waits(rest, x) <==> Waits(n, x) && x != w;
    assert Sound(rest) && w !in rest.queue;
    NotifyOneKeeps(rest);
  }

  /** A wake sent while nobody waits reaches the next to register; sent to waiters, it reaches the one longest registered. */
  lemma WakeReaches(n: Notify, w: nat)
    requires Sound(n) && w !in n.regs
    ensures n.queue == [] ==> !Waits(Enable(NotifyOne(n), w), w)
    ensures n.queue == [] && !n.permit ==> Waits(Enable(n, w), w)
    ensures n.queue != [] ==> n.queue[0] in NotifyOne(n).regs && NotifyOne(n).regs[n.queue[0]] == Told
    ensures n.queue != [] ==> !n.permit && NotifyOne(Enable(n, w)).queue == n.queue[1..] + [w]
  {
    if n.queue != [] {
      assert (n.queue + [w])[1..] == n.queue[1..] + [w];
    }
  }

  // ---- no wake is lost ----

  /** The waiters that were told and have not gone on. */
  function Tolds(n: Notify): set<nat> {
    set w | w in n.regs && n.regs[w] == Told
  }

  /** A `notify_one` becomes one more wake under way, unless nobody is waiting. */
  lemma NotifyOneTells(n: Notify)
    requires Sound(n)
    ensures |Tolds(NotifyOne(n))| == |Tolds(n)| + One(n.queue != [])
  {
    if n.queue != [] {
      assert Waits(n, n.queue[0]);
      SizesDiffer(Tolds(n), Tolds(NotifyOne(n)), n.queue[0]);
    } else {
      assert Tolds(NotifyOne(n)) == Tolds(n);
    }
  }

  lemma ToldMoves(n: Notify, w: nat)
    ensures |Tolds(Consume(n, w))| == |Tolds(n)| - One(Lookup(n.regs, w) == Some(Told))
    ensures w !in n.regs ==> |Tolds(Enable(n, w))| == |Tolds(n)|
  {
    SizesDiffer(Tolds(n), Tolds(Consume(n, w)), w);
    SizesDiffer(Tolds(n), Tolds(Enable(n, w)), w);
  }

  /** Dropping a waiter loses no wake while anybody still waits. */
  lemma DropForwards(n: Notify, w: nat)
    requires Sound(n)
    ensures (exists x :: Waits(Drop(n, w), x)) ==> |Tolds(Drop(n, w))| >= |Tolds(n)|
  {
    WithoutMeans(n.queue, w);
    var rest := Notify(Without(n.queue, w), n.permit, n.regs - {w});
    assert forall x :: Waits(rest, x) <==> Waits(n, x) && x != w;
    if n.queue == [] {
      assert rest.queue == [];
    }
    SizesDiffer(Tolds(n), Tolds(rest), w);
    NotifyOneTells(rest);
    NotifyOneKeeps(rest);
    if x :| Waits(Drop(n, w), x) {
      assert Waits(rest, x);
    }
  }
}
