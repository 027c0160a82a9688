/** Fibers, the scheduler's queue and a worker's turn of the run loop, as objects. What other threads do
    in between is the step system's business (`Runtime`); here one thread runs. */
module Schedulers {
  import opened Common
  import opened QueueSpec
  import F = Fleet

  // ---------------------------------------------------------------- fibers

  /** The thread-local pointers: the running fiber, and the one that `swapOut` goes back to. */
  class Thread {
    const tid: int
    const main: Fiber
    var current: Fiber

    constructor (tid: int, main: Fiber)
      ensures this.tid == tid && this.main == main && current == main
    {
      this.tid, this.main, this.current := tid, main, main;
    }
  }

  /** How a fiber that was entered comes to swap out. */
  datatype Outcome = Ended | Threw | YieldedReady | Held

  /** The state it leaves. `YieldToHold` does not touch it. */
  function LeftIn(o: Outcome): F.FiberState {
    match o
    case Ended => F.TERM
    case Threw => F.EXCEPT
    case YieldedReady => F.READY
    case Held => F.EXEC
  }

  class Fiber {
    const id: FiberId
    var state: F.FiberState
    var cb: Option<Callback>

    constructor (id: FiberId, cb: Option<Callback>)
      ensures this.id == id && state == F.INIT && this.cb == cb
    {
      this.id, this.cb, state := id, cb, F.INIT;
    }

    /** Asserts TERM, INIT or EXCEPT. */
    method Reset(cb: Option<Callback>)
      requires state == F.TERM || state == F.INIT || state == F.EXCEPT
      modifies this
      ensures state == F.INIT && this.cb == cb
    {
      this.cb := cb;
      state := F.INIT;
    }

    /** Asserts that the fiber is not EXEC. */
    method SwapIn(t: Thread)
      requires state != F.EXEC
      modifies this, t`current
      ensures state == F.EXEC && cb == old(cb) && t.current == this
    {
      t.current := this;
      state := F.EXEC;
    }

    method SwapOut(t: Thread)
      modifies t`current
      ensures t.current == t.main
    {
      t.current := t.main;
    }

    static method YieldToReady(t: Thread)
      modifies t`current, t.current
      ensures old(t.current).state == F.READY && old(t.current).cb == old(t.current.cb) && t.current == t.main
    {
      var cur := t.current;
      cur.state := F.READY;
      cur.SwapOut(t);
    }

    /** Asserts EXEC, and leaves it. */
    static method YieldToHold(t: Thread)
      requires t.current.state == F.EXEC
      modifies t`current
      ensures t.current == t.main
    {
      var cur := t.current;
      cur.SwapOut(t);
    }

    /** `MainFunc` once the callback has returned, or thrown. */
    static method Finish(t: Thread, threw: bool)
      modifies t`current, t.current
      ensures old(t.current).state == (if threw then F.EXCEPT else F.TERM)
      ensures old(t.current).cb == if threw then old(t.current.cb) else None
      ensures t.current == t.main
    {
      var cur := t.current;
      if !threw {
        cur.cb := None;
        cur.state := F.TERM;
      } else {
        cur.state := F.EXCEPT;
      }
      cur.SwapOut(t);
    }

    /** From `swapIn` until the thread is back. */
    method Execute(t: Thread, o: Outcome)
      requires state != F.EXEC
      modifies this, t`current
      ensures state == LeftIn(o) && t.current == t.main
      ensures cb == if o.Ended? then None else old(cb)
    {
      SwapIn(t);
      match o
      case Ended => Finish(t, false);
      case Threw => Finish(t, true);
      case YieldedReady => YieldToReady(t);
      case Held => YieldToHold(t);
    }
  }

  // ---------------------------------------------------------------- the queue

  /** `FiberAndThread`. */
  datatype Item = Item(fiber: Fiber?, cb: Option<Callback>, thread: int)
  {
    /** The assertion of the scan. */
    predicate Full() { fiber != null || cb.Some? }

    function ToEntry(): Entry
      requires Full()
    {
      Entry(if fiber != null then FiberOf(fiber.id) else CallbackOf(cb.value), thread)
    }
  }

  function FibersIn(items: seq<Item>): set<Fiber> {
    set i | 0 <= i < |items| && items[i].fiber != null :: items[i].fiber
  }

  predicate Proper(items: seq<Item>) {
    && (forall i :: 0 <= i < |items| ==> items[i].Full())
    && (forall f, g :: f in FibersIn(items) && g in FibersIn(items) && f.id == g.id ==> f == g)
  }

  function Entries(items: seq<Item>): (r: seq<Entry>)
    requires forall i :: 0 <= i < |items| ==> items[i].Full()
    ensures |r| == |items| && forall i :: 0 <= i < |items| ==> r[i] == items[i].ToEntry()
  {
    seq(|items|, i requires 0 <= i < |items| => items[i].ToEntry())
  }

  function Executing(items: seq<Item>): set<FiberId>
    reads FibersIn(items)
  {
    set f | f in FibersIn(items) && f.state == F.EXEC :: f.id
  }

  class Scheduler {
    var fibers: seq<Item>
    var activeThreadCount: int
    var idleThreadCount: int
    var autostop: bool
    var stopping: bool
    /** Bytes written to the wake-up pipe. */
    var pipe: nat

    constructor ()
      ensures fibers == [] && activeThreadCount == 0 && idleThreadCount == 0 && !autostop && !stopping && pipe == 0
    {
      fibers, activeThreadCount, idleThreadCount, autostop, stopping, pipe := [], 0, 0, false, false, 0;
    }

    /** `IOManager::tickle` */
    method Tickle()
      modifies this`pipe
      ensures pipe == old(pipe) + if idleThreadCount > 0 then 1 else 0
    {
      if idleThreadCount > 0 {
        pipe := pipe + 1;
      }
    }

    method ScheduleNoLock(fiber: Fiber?, cb: Option<Callback>, thread: int) returns (needTickle: bool)
      modifies this`fibers
      ensures needTickle == (old(fibers) == [])
      ensures fibers == if fiber != null || cb.Some? then old(fibers) + [Item(fiber, cb, thread)] else old(fibers)
    {
      needTickle := fibers == [];
      var ft := Item(fiber, cb, thread);
      if ft.fiber != null || ft.cb.Some? {
        fibers := fibers + [ft];
      }
    }

    /** The single form; the caller keeps its copy. */
    method Schedule(fiber: Fiber?, cb: Option<Callback>, thread: int)
      modifies this`fibers, this`pipe
      ensures fibers == if fiber != null || cb.Some? then old(fibers) + [Item(fiber, cb, thread)] else old(fibers)
      ensures pipe == old(pipe) + if old(fibers) == [] && idleThreadCount > 0 then 1 else 0
    {
      var needTickle := ScheduleNoLock(fiber, cb, thread);
      if needTickle {
        Tickle();
      }
    }

    /** The batch form, over callbacks: the non-empty ones move into the queue, in order, and every source
        is left empty. At most one byte is written, if the queue was empty and there was a source. */
    method ScheduleBatch(cbs: array<Option<Callback>>)
      requires forall i :: 0 <= i < |fibers| ==> fibers[i].Full()
      modifies this`fibers, this`pipe, cbs
      ensures forall i :: 0 <= i < |fibers| ==> fibers[i].Full()
      ensures old(fibers) <= fibers && FibersIn(fibers) == FibersIn(old(fibers))
      ensures Entries(fibers) == Entries(old(fibers)) + EntriesOf(Items(old(cbs[..])))
      ensures forall i :: 0 <= i < cbs.Length ==> cbs[i] == None
      ensures pipe == old(pipe) + if old(fibers) == [] && cbs.Length > 0 && idleThreadCount > 0 then 1 else 0
    {
      ghost var items := Items(cbs[..]);
      ghost var before := Entries(fibers);
      var needTickle := false;
      assert items[..0] == [] && before + [] == before;
      for i := 0 to cbs.Length
        invariant forall k :: 0 <= k < |fibers| ==> fibers[k].Full()
        invariant old(fibers) <= fibers && forall k :: |old(fibers)| <= k < |fibers| ==> fibers[k].fiber == null
        invariant Entries(fibers) == before + EntriesOf(items[..i])
        invariant forall k :: 0 <= k < i ==> cbs[k] == None
        invariant forall k :: i <= k < cbs.Length ==> cbs[k] == old(cbs[k])
        invariant needTickle == (i > 0 && old(fibers) == [])
        invariant pipe == old(pipe)
      {
        var cb := cbs[i];
        cbs[i] := None;
        ghost var were := fibers;
        var empty := ScheduleNoLock(null, cb, -1);
        needTickle := empty || needTickle;
        if cb.Some? {
          assert Entries(fibers) == Entries(were) + [Entry(CallbackOf(cb.value), -1)];
        }
        EntriesOfAppend(items, i);
      }
      assert items[..cbs.Length] == items;
      if needTickle {
        Tickle();
      }
    }

    /** The loop of the scan: how far it gets. */
    method FindNext(tid: int) returns (it: nat, tickleMe: bool)
      requires Proper(fibers)
      ensures var r := Scan(Entries(fibers), tid, old(Executing(fibers))); it == r.0 && tickleMe == r.1
    {
      it, tickleMe := 0, false;
      ghost var q := Entries(fibers);
      ghost var exec := Executing(fibers);
      assert q[0..] == q;
      while it < |fibers|
        invariant 0 <= it <= |fibers| == |q| && exec == Executing(fibers)
        invariant Scan(q, tid, exec).0 == it + Scan(q[it..], tid, exec).0
        invariant Scan(q, tid, exec).1 == (tickleMe || Scan(q[it..], tid, exec).1)
      {
        ScanTurn(fibers, it, tid);
        hide Scan, Proper, Entries;
        if fibers[it].thread != -1 && fibers[it].thread != tid {
          it := it + 1;
          tickleMe := true;
          continue;
        }
        if fibers[it].fiber != null && fibers[it].fiber.state == F.EXEC {
          it := it + 1;
          continue;
        }
        return;
      }
      ScanNothing(tid, exec);
      assert q[it..] == [];
    }

    /** The scan of the run loop: `ft` is taken out of the queue, or empty if there was nothing to take. */
    method TakeNext(tid: int) returns (ft: Item, tickleMe: bool)
      requires Proper(fibers)
      modifies this`fibers
      ensures var r := Scan(Entries(old(fibers)), tid, old(Executing(fibers)));
              && tickleMe == r.1
              && (if r.0 < |old(fibers)| then
                    && ft == old(fibers)[r.0] && ft.Full()
                    && fibers == old(fibers)[..r.0] + old(fibers)[r.0 + 1..]
                    && Entries(fibers) == Remove(Entries(old(fibers)), r.0)
                  else !ft.Full() && fibers == old(fibers))
      ensures Proper(fibers) && FibersIn(fibers) <= FibersIn(old(fibers))
      ensures ft.fiber != null ==> ft.fiber.state != F.EXEC && ft.fiber in FibersIn(old(fibers))
    {
      ft := Item(null, None, -1);
      var it;
      ghost var exec := Executing(fibers);
      it, tickleMe := FindNext(tid);
      if it < |fibers| {
        StaysProper(fibers, it);
        TakenIsFree(fibers, it, tid, exec);
        ft := fibers[it];
        fibers := fibers[..it] + fibers[it + 1..];
      }
    }

    /** `Scheduler::stopping` */
    predicate Stopping()
      reads this
    {
      autostop && stopping && fibers == [] && activeThreadCount == 0
    }
  }

  /** One step of the scan, on the objects. */
  lemma ScanTurn(items: seq<Item>, it: nat, tid: int)
    requires it < |items| && Proper(items)
    ensures items[it].fiber != null ==> items[it].fiber in FibersIn(items)
    ensures var q, exec := Entries(items), Executing(items);
            var now, rest := Scan(q[it..], tid, exec), Scan(q[it + 1..], tid, exec);
            if items[it].thread != -1 && items[it].thread != tid then now == (1 + rest.0, true)
            else if items[it].fiber != null && items[it].fiber.state == F.EXEC then now == (1 + rest.0, rest.1)
            else now == (0, false)
  {
    var q := Entries(items);
    assert q[it..][0] == items[it].ToEntry() && q[it..][1..] == q[it + 1..];
    assert items[it].fiber != null ==> items[it].fiber in FibersIn(items);
  }

  lemma ScanNothing(tid: int, exec: set<FiberId>)
    ensures Scan([], tid, exec) == (0, false)
  {}

  lemma TakenIsFree(items: seq<Item>, it: nat, tid: int, exec: set<FiberId>)
    requires it < |items| && Proper(items) && it == Scan(Entries(items), tid, exec).0
    requires forall f :: f in FibersIn(items) && f.state == F.EXEC ==> f.id in exec
    ensures items[it].Full()
    ensures items[it].fiber != null ==> items[it].fiber in FibersIn(items) && items[it].fiber.state != F.EXEC
  {
    ScanExact(Entries(items), tid, exec);
    assert items[it].fiber != null ==> items[it].fiber in FibersIn(items);
  }

  lemma StaysProper(items: seq<Item>, it: nat)
    requires it < |items| && Proper(items)
    ensures var rest := items[..it] + items[it + 1..];
            Proper(rest) && FibersIn(rest) <= FibersIn(items) && Entries(rest) == Remove(Entries(items), it)
  {}

  function Items(cbs: seq<Option<Callback>>): (r: seq<Option<Content>>)
    ensures |r| == |cbs| && forall k :: 0 <= k < |cbs| ==> r[k] == if cbs[k].Some? then Some(CallbackOf(cbs[k].value)) else None
  {
    seq(|cbs|, k requires 0 <= k < |cbs| => if cbs[k].Some? then Some(CallbackOf(cbs[k].value)) else None)
  }

  lemma {:induction false} EntriesOfConcat(a: seq<Option<Content>>, b: seq<Option<Content>>)
    ensures EntriesOf(a + b) == EntriesOf(a) + EntriesOf(b)
  {
    if a == [] {
      assert a + b == b;
    } else {
      assert (a + b)[0] == a[0] && (a + b)[1..] == a[1..] + b;
      EntriesOfConcat(a[1..], b);
    }
  }

  lemma EntriesOfAppend(items: seq<Option<Content>>, i: nat)
    requires i < |items|
    ensures EntriesOf(items[..i + 1]) == EntriesOf(items[..i]) + (if items[i].Some? then [Entry(items[i].value, -1)] else [])
  {
    assert items[..i + 1] == items[..i] + [items[i]];
    EntriesOfConcat(items[..i], [items[i]]);
    assert [items[i]][1..] == [];
  }

  // ---------------------------------------------------------------- a worker

  class Worker {
    const sched: Scheduler
    const thread: Thread
    const idleFiber: Fiber
    var cbFiber: Fiber?
    var left: bool

    /** What holds at every head of the loop. */
    ghost predicate AtHead()
      reads this, sched, FibersIn(sched.fibers), idleFiber, cbFiber
    {
      && Proper(sched.fibers)
      && (cbFiber != null ==>
            && cbFiber.state == F.INIT && cbFiber.cb == None && cbFiber !in FibersIn(sched.fibers)
            && forall f :: f in FibersIn(sched.fibers) ==> f.id != cbFiber.id)
      && cbFiber != idleFiber && idleFiber !in FibersIn(sched.fibers)
      && idleFiber.state != F.EXEC && idleFiber.state != F.EXCEPT
    }

    constructor (sched: Scheduler, thread: Thread, idleFiber: Fiber)
      requires Proper(sched.fibers) && idleFiber.state == F.INIT && idleFiber !in FibersIn(sched.fibers)
      ensures this.sched == sched && this.thread == thread && this.idleFiber == idleFiber
      ensures AtHead() && !left && cbFiber == null
    {
      this.sched, this.thread, this.idleFiber := sched, thread, idleFiber;
      cbFiber, left := null, false;
    }

    /** The first branch: a fiber is entered and left as it is. */
    method RunFiber(f: Fiber, o: Outcome)
      requires AtHead() && f.state != F.EXEC && f != cbFiber && f != idleFiber
      modifies f, sched`activeThreadCount, thread`current
      ensures AtHead() && f.state == LeftIn(o)
      ensures sched.activeThreadCount == old(sched.activeThreadCount) && thread.current == thread.main
    {
      sched.activeThreadCount := sched.activeThreadCount + 1;
      f.Execute(thread, o);
      sched.activeThreadCount := sched.activeThreadCount - 1;
    }

    /** The second branch: the callback goes into the worker's own fiber, which is entered; afterwards it
        is put back into the queue, or kept for the next callback, or let go in state HOLD. */
    method RunCallback(cb: Callback, o: Outcome, newId: FiberId) returns (f: Fiber)
      requires AtHead() && forall g :: g in FibersIn(sched.fibers) ==> g.id != newId
      modifies this`cbFiber, cbFiber, sched`activeThreadCount, sched`fibers, sched`pipe, thread`current
      ensures AtHead()
      ensures if old(cbFiber) != null then f == old(cbFiber) else fresh(f) && f.id == newId
      ensures sched.activeThreadCount == old(sched.activeThreadCount) && thread.current == thread.main
      ensures o.Ended? || o.Threw? ==> cbFiber == f && f.state == F.INIT && f.cb == None && sched.fibers == old(sched.fibers)
      ensures o.YieldedReady? ==>
                cbFiber == null && f.state == F.READY && f.cb == Some(cb) && sched.fibers == old(sched.fibers) + [Item(f, None, -1)]
      ensures o.Held? ==> cbFiber == null && f.state == F.HOLD && f.cb == Some(cb) && sched.fibers == old(sched.fibers)
    {
      if cbFiber != null {
        cbFiber.Reset(Some(cb));
      } else {
        cbFiber := new Fiber(newId, Some(cb));
      }
      f := cbFiber;
      sched.activeThreadCount := sched.activeThreadCount + 1;
      f.Execute(thread, o);
      sched.activeThreadCount := sched.activeThreadCount - 1;
      if f.state == F.READY {
        sched.Schedule(f, None, -1);
        cbFiber := null;
      } else if f.state == F.EXCEPT || f.state == F.TERM {
        f.Reset(None);
      } else {
        f.state := F.HOLD;
        cbFiber := null;
      }
    }

    /** The third branch: nothing to run. The worker leaves once its idle fiber has ended. */
    method RunIdle(o: Outcome)
      requires AtHead() && !o.Threw?
      modifies this`left, idleFiber, sched`idleThreadCount, thread`current
      ensures AtHead()
      ensures left == (old(left) || old(idleFiber.state) == F.TERM)
      ensures old(idleFiber.state) == F.TERM ==> idleFiber.state == F.TERM
      ensures old(idleFiber.state) != F.TERM ==> idleFiber.state == (if o.Ended? then F.TERM else F.HOLD)
      ensures sched.idleThreadCount == old(sched.idleThreadCount)
    {
      if idleFiber.state == F.TERM {
        left := true;
        return;
      }
      sched.idleThreadCount := sched.idleThreadCount + 1;
      idleFiber.Execute(thread, o);
      sched.idleThreadCount := sched.idleThreadCount - 1;
      if idleFiber.state != F.TERM && idleFiber.state != F.EXCEPT {
        idleFiber.state := F.HOLD;
      }
    }

    /** One turn of the loop. Whatever the entered fiber does: every assertion on the way holds, the head
        is in order again, and the counters are back. A fiber from the queue is left in the state that it
        swapped out in, READY and EXEC included, and is not queued again; a callback's fiber is. */
    method Turn(o: Outcome, newId: FiberId)
      requires AtHead() && (forall f :: f in FibersIn(sched.fibers) ==> f.id != newId)
      requires Scan(Entries(sched.fibers), thread.tid, Executing(sched.fibers)).0 == |sched.fibers| ==> !o.Threw?
      modifies this`cbFiber, this`left, cbFiber, idleFiber, FibersIn(sched.fibers), sched, thread`current
      ensures AtHead()
      ensures sched.activeThreadCount == old(sched.activeThreadCount)
      ensures sched.idleThreadCount == old(sched.idleThreadCount)
      ensures var r := Scan(Entries(old(sched.fibers)), thread.tid, old(Executing(sched.fibers)));
              if r.0 < |old(sched.fibers)| then
                var ft := old(sched.fibers)[r.0];
                var rest := old(sched.fibers)[..r.0] + old(sched.fibers)[r.0 + 1..];
                && left == old(left)
                && (ft.fiber != null ==>
                      ft.fiber.state == LeftIn(o) && sched.fibers == rest && cbFiber == old(cbFiber))
                && (ft.fiber == null ==>
                      && (cbFiber == null <==> o.YieldedReady? || o.Held?)
                      && (cbFiber != null ==> cbFiber.state == F.INIT && cbFiber.cb == None)
                      && (if o.YieldedReady? then
                            |sched.fibers| == |rest| + 1 && sched.fibers[..|rest|] == rest && sched.fibers[|rest|].fiber != null
                            && sched.fibers[|rest|].fiber.state == F.READY && sched.fibers[|rest|].fiber.cb == ft.cb
                          else sched.fibers == rest))
              else sched.fibers == old(sched.fibers) && left == (old(left) || old(idleFiber.state) == F.TERM)
    {
      hide Scan, Executing, Proper;
      var ft, tickleMe := sched.TakeNext(thread.tid);
      if tickleMe {
        sched.Tickle();
      }
      assert AtHead();
      if ft.fiber != null {
        RunFiber(ft.fiber, o);
      } else if ft.cb.Some? {
        var _ := RunCallback(ft.cb.value, o, newId);
      } else {
        RunIdle(o);
      }
    }
  }
}
