/** Wake-up tokens: the places that may bring a fiber back to a worker, and how many of them there are
    for each fiber. */
module Tokens {
  import opened Common
  import opened Sums
  import opened Fleet
  import EventSpec
  import TimerSpec
  import opened TimerWeights

  /** A `sleep` closure for `f`. */
  function Wakes(f: FiberId): Callback -> int {
    (cb: Callback) => if cb == Wake(f) then 1 else 0
  }

  function Carries(x: Content, f: FiberId): int {
    match x
    case FiberOf(g) => if g == f then 1 else 0
    case CallbackOf(cb) => Wakes(f)(cb)
  }

  function InEntry(f: FiberId): Entry -> int { (e: Entry) => Carries(e.content, f) }

  function InWorker(f: FiberId): Worker -> int {
    (w: Worker) =>
      match w.pc
      case Took(e) => Carries(e.content, f)
      case Counted(g, asCb) => if g == f && !asCb then 1 else 0
      case IdleGot(cbs, _) => Sum(cbs, Wakes(f))
      case _ => 0
  }

  /** A `sleep` closure that is about to be called. */
  function InFiber(f: FiberId): Fiber -> int {
    (x: Fiber) =>
      match x.pc
      case Loaded(cb) => Wakes(f)(cb)
      case Fresh(cb) => Wakes(f)(cb)
      case Begin(cb) => Wakes(f)(cb)
      case _ => 0
  }

  /** Where wake-ups live. */
  datatype Places = Places(queue: seq<Entry>, table: EventSpec.Table, timers: TimerSpec.Queue, fl: Fleet)

  function InSlots(t: EventSpec.Table, f: FiberId): int {
    EventSpec.Waiting(t, FiberOf(f)) + EventSpec.Waiting(t, CallbackOf(Wake(f)))
  }

  /** The number of tokens of `f`: in the queue, in event slots, in armed timers, in workers' hands,
      and in closures that fibers are about to call. */
  function Held(p: Places, f: FiberId): int {
    Sum(p.queue, InEntry(f)) + InSlots(p.table, f) + Armed(p.timers, Wakes(f))
    + Sum(p.fl.workers, InWorker(f)) + Sum(p.fl.fibers, InFiber(f))
  }

  /** A fiber that waits to be brought (back) to a worker, or has arranged for it. */
  predicate Waits(pc: Pc) {
    pc.Fresh? || pc.IoYield? || pc.IoParked? || pc.SleepYield? || pc.SleepParked?
  }

  function Owed(fibers: seq<Fiber>, f: FiberId): int {
    if f < |fibers| && Waits(fibers[f].pc) then 1 else 0
  }

  /** One token for every fiber that waits, none for any other. */
  ghost predicate TokenInv(p: Places) {
    forall f: FiberId :: Held(p, f) == Owed(p.fl.fibers, f)
  }

  lemma WakesNonNegative(cbs: seq<Callback>, f: FiberId)
    ensures Sum(cbs, Wakes(f)) >= 0
  {
    SumNonNegative(cbs, Wakes(f));
  }

  lemma InWorkerNonNegative(w: Worker, f: FiberId)
    ensures InWorker(f)(w) >= 0
  {
    if w.pc.IdleGot? { WakesNonNegative(w.pc.cbs, f); }
  }

  lemma WaitingNonNegative(t: EventSpec.Table, x: Content)
    ensures EventSpec.Waiting(t, x) >= 0
  {
    forall i | 0 <= i < |t.ctxs| ensures EventSpec.Holds(x)(t.ctxs[i]) >= 0 {
      SumNonNegative(EventSpec.Waiter(t.ctxs[i].read), EventSpec.Same(x));
      SumNonNegative(EventSpec.Waiter(t.ctxs[i].write), EventSpec.Same(x));
    }
    SumNonNegative(t.ctxs, EventSpec.Holds(x));
  }

  /** All parts of the count are non-negative, so any part bounds the total from below. */
  lemma PartsNonNegative(p: Places, f: FiberId)
    ensures Sum(p.queue, InEntry(f)) >= 0 && InSlots(p.table, f) >= 0 && Armed(p.timers, Wakes(f)) >= 0
    ensures Sum(p.fl.workers, InWorker(f)) >= 0 && Sum(p.fl.fibers, InFiber(f)) >= 0
  {
    SumNonNegative(p.queue, InEntry(f));
    WaitingNonNegative(p.table, FiberOf(f));
    WaitingNonNegative(p.table, CallbackOf(Wake(f)));
    SumNonNegative(p.timers.armed, OfTimer(p.timers.recs, Wakes(f)));
    forall i | 0 <= i < |p.fl.workers| ensures InWorker(f)(p.fl.workers[i]) >= 0 {
      InWorkerNonNegative(p.fl.workers[i], f);
    }
    SumNonNegative(p.fl.workers, InWorker(f));
    SumNonNegative(p.fl.fibers, InFiber(f));
  }

  /** An entry of the queue that is a fiber: the fiber waits, and no worker has a token of it. */
  lemma QueuedFiberWaits(p: Places, i: nat, f: FiberId)
    requires TokenInv(p) && i < |p.queue| && p.queue[i].content == FiberOf(f)
    ensures f < |p.fl.fibers| && Waits(p.fl.fibers[f].pc)
    ensures forall j :: 0 <= j < |p.fl.workers| ==> InWorker(f)(p.fl.workers[j]) == 0
  {
    PartsNonNegative(p, f);
    SumAtLeast(p.queue, i, InEntry(f));
    assert Held(p, f) == Owed(p.fl.fibers, f);
    forall j | 0 <= j < |p.fl.workers| ensures InWorker(f)(p.fl.workers[j]) == 0 {
      forall w | w in p.fl.workers ensures InWorker(f)(w) >= 0 { InWorkerNonNegative(w, f); }
      SumAtLeast(p.fl.workers, j, InWorker(f));
    }
  }

  /** So no worker refers to it at all, unless it is still in state EXEC. */
  lemma QueuedFiberIsFree(p: Places, i: nat, f: FiberId)
    requires TokenInv(p) && FleetInv(p.fl) && i < |p.queue| && p.queue[i].content == FiberOf(f)
    ensures f < |p.fl.fibers| && Waits(p.fl.fibers[f].pc)
    ensures p.fl.fibers[f].state != EXEC ==>
              Enterable(p.fl.fibers, f) && forall j :: 0 <= j < |p.fl.workers| ==> !Refers(p.fl.workers[j], f)
  {
    QueuedFiberWaits(p, i, f);
    assert StateFits(p.fl.fibers[f]);
    if p.fl.fibers[f].state != EXEC {
      forall j | 0 <= j < |p.fl.workers| ensures !Refers(p.fl.workers[j], f) {
        assert WorkerFits(p.fl.workers[j], p.fl.fibers);
        assert InWorker(f)(p.fl.workers[j]) == 0;
      }
    }
  }

  // ---------------------------------------------------------------- entries made of contents

  /** What `schedule` makes of woken contents. */
  function Unpinned(xs: seq<Content>): seq<Entry> {
    if xs == [] then [] else [Entry(xs[0], -1)] + Unpinned(xs[1..])
  }

  function Calls(cbs: seq<Callback>): (r: seq<Content>)
    ensures |r| == |cbs|
  {
    if cbs == [] then [] else [CallbackOf(cbs[0])] + Calls(cbs[1..])
  }

  lemma {:induction false} UnpinnedTokens(xs: seq<Content>, f: FiberId)
    ensures Sum(Unpinned(xs), InEntry(f)) == EventSpec.Occurs(xs, FiberOf(f)) + EventSpec.Occurs(xs, CallbackOf(Wake(f)))
  {
    if xs != [] {
      UnpinnedTokens(xs[1..], f);
      SumConcat([Entry(xs[0], -1)], Unpinned(xs[1..]), InEntry(f));
      assert Sum([Entry(xs[0], -1)], InEntry(f)) == InEntry(f)(Entry(xs[0], -1)) + Sum([], InEntry(f));
    }
  }

  lemma {:induction false} CallsTokens(cbs: seq<Callback>, f: FiberId)
    ensures Sum(Unpinned(Calls(cbs)), InEntry(f)) == Sum(cbs, Wakes(f))
  {
    if cbs != [] {
      CallsTokens(cbs[1..], f);
      assert Calls(cbs)[1..] == Calls(cbs[1..]);
      SumConcat([Entry(CallbackOf(cbs[0]), -1)], Unpinned(Calls(cbs[1..])), InEntry(f));
      assert Sum([Entry(CallbackOf(cbs[0]), -1)], InEntry(f))
             == InEntry(f)(Entry(CallbackOf(cbs[0]), -1)) + Sum([], InEntry(f));
    }
  }

  // ---------------------------------------------------------------- how tokens move

  /** One worker and one fiber change (`x` replaces fiber `g`, or is added). */
  lemma FleetMove(fl: Fleet, i: nat, w: Worker, g: FiberId, x: Fiber, fl': Fleet, f: FiberId)
    requires i < |fl.workers| && g <= |fl.fibers|
    requires fl'.workers == fl.workers[i := w]
    requires fl'.fibers == if g < |fl.fibers| then fl.fibers[g := x] else fl.fibers + [x]
    ensures Sum(fl'.workers, InWorker(f)) == Sum(fl.workers, InWorker(f)) - InWorker(f)(fl.workers[i]) + InWorker(f)(w)
    ensures Sum(fl'.fibers, InFiber(f))
            == Sum(fl.fibers, InFiber(f)) - (if g < |fl.fibers| then InFiber(f)(fl.fibers[g]) else 0) + InFiber(f)(x)
  {
    SumUpdate(fl.workers, i, w, InWorker(f));
    if g < |fl.fibers| { SumUpdate(fl.fibers, g, x, InFiber(f)); }
    else { SumAppend(fl.fibers, x, InFiber(f)); }
  }
}
