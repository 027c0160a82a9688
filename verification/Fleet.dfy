/** Fibers and the worker threads that run them: which fiber is in which state, which worker has its
    hands on it, and what the run loop's assertions need. */
module Fleet {
  import opened Common
  import opened Sums
  import opened EventSpec

  /** `Fiber::State`. */
  datatype FiberState = INIT | HOLD | EXEC | TERM | READY | EXCEPT

  /** Where a fiber's code stands. `c` names the blocking call it is in. */
  datatype Pc =
    | Blank                  // a worker's spare callback fiber, without a callback
    | Loaded(cb: Callback)   // the spare with a callback, not entered yet
    | Fresh(cb: Callback)    // created by the program and queued, never entered
    | Begin(cb: Callback)    // entered, about to call cb
    | Code                   // in user code
    | Cancelling(c: nat)     // a timeout closure between setting `cancelled` and `cancelEvent`
    | IoTry(c: nat)          // about to make the system call
    | IoReady(c: nat)        // EAGAIN; the timer, if any, is armed; about to call `addEvent`
    | IoFail(c: nat)         // `addEvent` failed; about to cancel the timer and return -1
    | IoYield(c: nat)        // registered; about to swap out
    | IoParked(c: nat)       // swapped out in `do_io`
    | IoWoken(c: nat)        // back from `YieldToHold`; about to cancel the timer
    | IoCheck(c: nat)        // about to read `cancelled`
    | SleepYield             // the wake-up timer is armed; about to swap out
    | SleepParked            // swapped out in `sleep`
    | Ending                 // the closure returned
    | Finished               // swapped out for good by `MainFunc`

  predicate Parked(pc: Pc) { pc.IoParked? || pc.SleepParked? }

  predicate OnCpu(pc: Pc) {
    !Parked(pc) && !pc.Blank? && !pc.Loaded? && !pc.Fresh? && !pc.Finished?
  }

  datatype Fiber = Fiber(state: FiberState, pc: Pc)

  /** Where a worker stands in `Scheduler::run` and in `IOManager::idle`. */
  datatype WorkerPc =
    | Head                                            // top of the loop
    | Took(e: Entry)                                  // an entry is in `ft`
    | CbLoaded                                        // its callback is in `cb_fiber`
    | Counted(f: FiberId, asCb: bool)                 // `++m_activeThreadCount` is done
    | Inside(f: FiberId, asCb: bool)                  // swapped into `f`
    | Outside(f: FiberId, asCb: bool)                 // swapped back
    | Settle(f: FiberId)                              // callback branch, `--m_activeThreadCount` is done
    | IdleCheck                                       // in idle, about to ask `stopping`
    | IdleWait                                        // in idle, waiting
    | IdleGot(cbs: seq<Callback>, evs: seq<(nat, Mask)>) // expired callbacks in the local vector
    | IdleDispatch(evs: seq<(nat, Mask)>)             // callbacks scheduled, events left to dispatch
    | IdleOut                                         // swapped out of idle
    | Exited                                          // left `run`

  datatype Worker = Worker(pc: WorkerPc, cbFiber: Option<FiberId>, idleDone: bool)

  /** The state that goes with a position. */
  predicate StateFits(x: Fiber) {
    if OnCpu(x.pc) then x.state == EXEC
    else if Parked(x.pc) then x.state == EXEC || x.state == HOLD
    else if x.pc.Finished? then x.state == TERM || x.state == EXCEPT
    else x.state == INIT
  }

  /** The worker's loop variables lead to `f`. */
  predicate Refers(w: Worker, f: FiberId) {
    || w.cbFiber == Some(f)
    || match w.pc
       case Took(e) => e.content == FiberOf(f)
       case Counted(g, _) => g == f
       case Inside(g, _) => g == f
       case Outside(g, asCb) => g == f && asCb
       case Settle(g) => g == f
       case _ => false
  }

  /** `cb_fiber` is null or INIT, with no callback in it. */
  predicate Spare(w: Worker, fibers: seq<Fiber>) {
    w.cbFiber.Some? ==> w.cbFiber.value < |fibers| && fibers[w.cbFiber.value].pc.Blank?
  }

  /** A fiber that may be entered. */
  predicate Enterable(fibers: seq<Fiber>, f: FiberId) {
    f < |fibers| && (fibers[f].pc.Fresh? || (Parked(fibers[f].pc) && fibers[f].state == HOLD))
  }

  predicate WorkerFits(w: Worker, fibers: seq<Fiber>) {
    match w.pc
    case Took(e) => Spare(w, fibers) && (e.content.FiberOf? ==> Enterable(fibers, e.content.f))
    case CbLoaded => w.cbFiber.Some? && w.cbFiber.value < |fibers| && fibers[w.cbFiber.value].pc.Loaded?
    case Counted(f, asCb) =>
      if asCb then w.cbFiber == Some(f) && f < |fibers| && fibers[f].pc.Loaded?
      else Spare(w, fibers) && Enterable(fibers, f)
    case Inside(f, asCb) =>
      && f < |fibers| && OnCpu(fibers[f].pc)
      && (if asCb then w.cbFiber == Some(f) else Spare(w, fibers))
    case Outside(f, asCb) => if asCb then SettlesTo(w, fibers, f) else Spare(w, fibers)
    case Settle(f) => SettlesTo(w, fibers, f)
    case _ => Spare(w, fibers)
  }

  predicate SettlesTo(w: Worker, fibers: seq<Fiber>, f: FiberId) {
    && w.cbFiber == Some(f) && f < |fibers|
    && (fibers[f].pc.Finished? || (Parked(fibers[f].pc) && fibers[f].state == EXEC))
  }

  function IsActive(): Worker -> int {
    (w: Worker) => if w.pc.Counted? || w.pc.Inside? || w.pc.Outside? then 1 else 0
  }

  function IsIdle(): Worker -> int {
    (w: Worker) => if w.pc.IdleCheck? || w.pc.IdleWait? || w.pc.IdleGot? || w.pc.IdleDispatch? || w.pc.IdleOut? then 1 else 0
  }

  datatype Fleet = Fleet(fibers: seq<Fiber>, workers: seq<Worker>, active: int, idle: int)

  ghost predicate Exclusive(workers: seq<Worker>) {
    forall i, j, f :: 0 <= i < j < |workers| ==> !(Refers(workers[i], f) && Refers(workers[j], f))
  }

  /** Every fiber in the middle of its code is on some worker. */
  ghost predicate Covered(fl: Fleet) {
    forall f :: 0 <= f < |fl.fibers| && OnCpu(fl.fibers[f].pc) ==>
                  exists i :: 0 <= i < |fl.workers| && RunsFiber(fl.workers[i], f)
  }

  predicate RunsFiber(w: Worker, f: FiberId) { w.pc.Inside? && w.pc.f == f }

  ghost predicate FleetInv(fl: Fleet) {
    && (forall f :: 0 <= f < |fl.fibers| ==> StateFits(fl.fibers[f]))
    && (forall i :: 0 <= i < |fl.workers| ==> WorkerFits(fl.workers[i], fl.fibers))
    && Exclusive(fl.workers)
    && Covered(fl)
    && fl.active == Sum(fl.workers, IsActive())
    && fl.idle == Sum(fl.workers, IsIdle())
  }

  // ---------------------------------------------------------------- changes that keep the invariant

  /** A worker is not disturbed by a change to a fiber it does not refer to. */
  lemma Undisturbed(w: Worker, fibers: seq<Fiber>, fibers': seq<Fiber>, f: FiberId)
    requires WorkerFits(w, fibers) && !Refers(w, f)
    requires |fibers| <= |fibers'| && forall g :: 0 <= g < |fibers| && g != f ==> fibers'[g] == fibers[g]
    ensures WorkerFits(w, fibers')
  {}

  /** The general step: worker `i` becomes `w`, fiber `f` becomes `x` (or `f == |fibers|` is created),
      and only worker `i` referred to `f`. */
  lemma StepKeepsFleet(fl: Fleet, i: nat, w: Worker, f: FiberId, x: Fiber, fl': Fleet)
    requires FleetInv(fl) && i < |fl.workers| && f <= |fl.fibers|
    requires fl'.workers == fl.workers[i := w]
    requires fl'.fibers == if f < |fl.fibers| then fl.fibers[f := x] else fl.fibers + [x]
    requires fl'.active == fl.active - IsActive()(fl.workers[i]) + IsActive()(w)
    requires fl'.idle == fl.idle - IsIdle()(fl.workers[i]) + IsIdle()(w)
    requires forall j :: 0 <= j < |fl.workers| && j != i ==> !Refers(fl.workers[j], f)
    requires forall g :: Refers(w, g) && g != f ==> Refers(fl.workers[i], g)
    requires StateFits(x) && WorkerFits(w, fl'.fibers)
    requires OnCpu(x.pc) ==> RunsFiber(w, f)
    requires forall g :: g != f && RunsFiber(fl.workers[i], g) ==> RunsFiber(w, g)
    ensures FleetInv(fl')
  {
    SumUpdate(fl.workers, i, w, IsActive());
    SumUpdate(fl.workers, i, w, IsIdle());
    forall j | 0 <= j < |fl'.workers| ensures WorkerFits(fl'.workers[j], fl'.fibers) {
      if j != i {
        Undisturbed(fl.workers[j], fl.fibers, fl'.fibers, f);
      }
    }
    StepKeepsCover(fl, i, w, f, x, fl');
    forall j, k, g | 0 <= j < k < |fl'.workers| ensures !(Refers(fl'.workers[j], g) && Refers(fl'.workers[k], g)) {}
  }

  lemma StepKeepsCover(fl: Fleet, i: nat, w: Worker, f: FiberId, x: Fiber, fl': Fleet)
    requires Covered(fl) && i < |fl.workers| && f <= |fl.fibers|
    requires fl'.workers == fl.workers[i := w]
    requires fl'.fibers == if f < |fl.fibers| then fl.fibers[f := x] else fl.fibers + [x]
    requires OnCpu(x.pc) ==> RunsFiber(w, f)
    requires forall g :: g != f && RunsFiber(fl.workers[i], g) ==> RunsFiber(w, g)
    ensures Covered(fl')
  {
    forall g | 0 <= g < |fl'.fibers| && OnCpu(fl'.fibers[g].pc)
      ensures exists j :: 0 <= j < |fl'.workers| && RunsFiber(fl'.workers[j], g)
    {
      if g == f {
        assert RunsFiber(fl'.workers[i], g);
      } else {
        var j :| 0 <= j < |fl.workers| && RunsFiber(fl.workers[j], g);
        assert RunsFiber(fl'.workers[j], g);
      }
    }
  }

  /** The step that touches no fiber. */
  lemma WorkerStepKeepsFleet(fl: Fleet, i: nat, w: Worker, fl': Fleet)
    requires FleetInv(fl) && i < |fl.workers|
    requires fl'.workers == fl.workers[i := w] && fl'.fibers == fl.fibers
    requires fl'.active == fl.active - IsActive()(fl.workers[i]) + IsActive()(w)
    requires fl'.idle == fl.idle - IsIdle()(fl.workers[i]) + IsIdle()(w)
    requires forall j, g :: 0 <= j < |fl.workers| && j != i && Refers(w, g) ==> !Refers(fl.workers[j], g)
    requires WorkerFits(w, fl.fibers)
    requires forall g :: RunsFiber(fl.workers[i], g) ==> RunsFiber(w, g)
    ensures FleetInv(fl')
  {
    SumUpdate(fl.workers, i, w, IsActive());
    SumUpdate(fl.workers, i, w, IsIdle());
    forall g | 0 <= g < |fl'.fibers| && OnCpu(fl'.fibers[g].pc)
      ensures exists j :: 0 <= j < |fl'.workers| && RunsFiber(fl'.workers[j], g)
    {
      var j :| 0 <= j < |fl.workers| && RunsFiber(fl.workers[j], g);
      assert RunsFiber(fl'.workers[j], g);
    }
    forall j, k, g | 0 <= j < k < |fl'.workers| ensures !(Refers(fl'.workers[j], g) && Refers(fl'.workers[k], g)) {}
  }

  /** A new queued fiber disturbs nobody. */
  lemma SpawnKeepsFleet(fl: Fleet, x: Fiber, fl': Fleet)
    requires FleetInv(fl) && StateFits(x) && x.pc.Fresh?
    requires fl' == fl.(fibers := fl.fibers + [x])
    ensures FleetInv(fl')
  {
    forall j | 0 <= j < |fl'.workers| ensures WorkerFits(fl'.workers[j], fl'.fibers) {
      assert WorkerFits(fl.workers[j], fl.fibers);
    }
    forall g | 0 <= g < |fl'.fibers| && OnCpu(fl'.fibers[g].pc)
      ensures exists j :: 0 <= j < |fl'.workers| && RunsFiber(fl'.workers[j], g)
    {
      assert g < |fl.fibers|;
    }
  }

  /** A running fiber belongs to its worker alone. */
  lemma RunningIsMine(fl: Fleet, i: nat, f: FiberId)
    requires FleetInv(fl) && i < |fl.workers| && Refers(fl.workers[i], f)
    ensures forall j :: 0 <= j < |fl.workers| && j != i ==> !Refers(fl.workers[j], f)
  {}

  // ---------------------------------------------------------------- the steps of a worker and its fiber

  /** A fiber moves on in its code. */
  function Goto(fl: Fleet, f: FiberId, pc: Pc): Fleet
    requires f < |fl.fibers|
  {
    fl.(fibers := fl.fibers[f := fl.fibers[f].(pc := pc)])
  }

  lemma GotoKeeps(fl: Fleet, i: nat, f: FiberId, pc: Pc)
    requires FleetInv(fl) && i < |fl.workers| && RunsFiber(fl.workers[i], f) && OnCpu(pc)
    ensures f < |fl.fibers| && FleetInv(Goto(fl, f, pc))
  {
    var w := fl.workers[i];
    assert WorkerFits(w, fl.fibers);
    assert Refers(w, f);
    RunningIsMine(fl, i, f);
    assert fl.workers[i := w] == fl.workers;
    StepKeepsFleet(fl, i, w, f, fl.fibers[f].(pc := pc), Goto(fl, f, pc));
  }

  /** A fiber swaps out: `YieldToHold` leaves its state as it is, `MainFunc` leaves TERM or EXCEPT. */
  function SwapOut(fl: Fleet, i: nat, x: Fiber): Fleet
    requires i < |fl.workers| && fl.workers[i].pc.Inside? && fl.workers[i].pc.f < |fl.fibers|
  {
    var pc := fl.workers[i].pc;
    fl.(fibers := fl.fibers[pc.f := x], workers := fl.workers[i := fl.workers[i].(pc := Outside(pc.f, pc.asCb))])
  }

  lemma SwapOutKeeps(fl: Fleet, i: nat, x: Fiber)
    requires FleetInv(fl) && i < |fl.workers| && fl.workers[i].pc.Inside?
    requires (Parked(x.pc) && x.state == EXEC) || (x.pc.Finished? && (x.state == TERM || x.state == EXCEPT))
    ensures fl.workers[i].pc.f < |fl.fibers| && FleetInv(SwapOut(fl, i, x))
  {
    var w := fl.workers[i];
    var f := w.pc.f;
    assert WorkerFits(w, fl.fibers);
    assert Refers(w, f);
    RunningIsMine(fl, i, f);
    var w' := w.(pc := Outside(f, w.pc.asCb));
    if !w.pc.asCb && w.cbFiber.Some? {
      assert fl.fibers[w.cbFiber.value].pc.Blank?;
    }
    StepKeepsFleet(fl, i, w', f, x, SwapOut(fl, i, x));
  }

  /** What a fiber runs into when it is entered. */
  function Entered(pc: Pc): Pc {
    match pc
    case Loaded(cb) => Begin(cb)
    case Fresh(cb) => Begin(cb)
    case IoParked(c) => IoWoken(c)
    case SleepParked => Code
    case _ => pc
  }

  /** `swapIn`. */
  function SwapIn(fl: Fleet, i: nat): Fleet
    requires i < |fl.workers| && fl.workers[i].pc.Counted? && fl.workers[i].pc.f < |fl.fibers|
  {
    var pc := fl.workers[i].pc;
    fl.(fibers := fl.fibers[pc.f := Fiber(EXEC, Entered(fl.fibers[pc.f].pc))],
        workers := fl.workers[i := fl.workers[i].(pc := Inside(pc.f, pc.asCb))])
  }

  /** The assertion of `swapIn` (not EXEC) holds at every entry, and the fiber is not finished. */
  lemma SwapInKeeps(fl: Fleet, i: nat)
    requires FleetInv(fl) && i < |fl.workers| && fl.workers[i].pc.Counted?
    ensures var f := fl.workers[i].pc.f;
            && f < |fl.fibers| && FleetInv(SwapIn(fl, i))
            && fl.fibers[f].state != EXEC && fl.fibers[f].state != TERM && fl.fibers[f].state != EXCEPT
            && (fl.fibers[f].pc.Loaded? || fl.fibers[f].pc.Fresh? || Parked(fl.fibers[f].pc))
  {
    var w := fl.workers[i];
    var f := w.pc.f;
    assert WorkerFits(w, fl.fibers);
    assert Refers(w, f) && StateFits(fl.fibers[f]);
    RunningIsMine(fl, i, f);
    if !w.pc.asCb && w.cbFiber.Some? {
      assert fl.fibers[w.cbFiber.value].pc.Blank?;
    }
    StepKeepsFleet(fl, i, w.(pc := Inside(f, w.pc.asCb)), f, Fiber(EXEC, Entered(fl.fibers[f].pc)), SwapIn(fl, i));
  }

  /** Worker `i` moves on, touching no fiber; the counters follow. */
  function WorkerGoto(fl: Fleet, i: nat, w: Worker): Fleet
    requires i < |fl.workers|
  {
    fl.(workers := fl.workers[i := w],
        active := fl.active - IsActive()(fl.workers[i]) + IsActive()(w),
        idle := fl.idle - IsIdle()(fl.workers[i]) + IsIdle()(w))
  }

  lemma WorkerGotoKeeps(fl: Fleet, i: nat, w: Worker)
    requires FleetInv(fl) && i < |fl.workers| && !fl.workers[i].pc.Inside?
    requires forall g :: Refers(w, g) ==> Refers(fl.workers[i], g)
    requires WorkerFits(w, fl.fibers)
    ensures FleetInv(WorkerGoto(fl, i, w))
  {
    WorkerStepKeepsFleet(fl, i, w, WorkerGoto(fl, i, w));
  }

  /** The scan puts an entry into `ft`. If it is a fiber, no worker may have a hand on it. */
  lemma TakeKeeps(fl: Fleet, i: nat, e: Entry)
    requires FleetInv(fl) && i < |fl.workers| && fl.workers[i].pc.Head?
    requires e.content.FiberOf? ==>
               Enterable(fl.fibers, e.content.f)
               && forall j :: 0 <= j < |fl.workers| ==> !Refers(fl.workers[j], e.content.f)
    ensures FleetInv(WorkerGoto(fl, i, fl.workers[i].(pc := Took(e))))
  {
    var w := fl.workers[i].(pc := Took(e));
    assert WorkerFits(fl.workers[i], fl.fibers);
    forall j, g: FiberId | 0 <= j < |fl.workers| && j != i && Refers(w, g) ensures !Refers(fl.workers[j], g) {
      if w.cbFiber == Some(g) {
        assert Refers(fl.workers[i], g);
      }
    }
    WorkerStepKeepsFleet(fl, i, w, WorkerGoto(fl, i, w));
  }

  /** `cb_fiber->reset(ft.cb)`, or a new fiber when there is no spare. */
  function LoadCallback(fl: Fleet, i: nat, cb: Callback): Fleet
    requires i < |fl.workers| && (fl.workers[i].cbFiber.Some? ==> fl.workers[i].cbFiber.value < |fl.fibers|)
  {
    var w := fl.workers[i];
    var x := Fiber(INIT, Loaded(cb));
    if w.cbFiber.Some? then
      fl.(fibers := fl.fibers[w.cbFiber.value := x], workers := fl.workers[i := w.(pc := CbLoaded)])
    else
      fl.(fibers := fl.fibers + [x], workers := fl.workers[i := w.(pc := CbLoaded, cbFiber := Some(|fl.fibers|))])
  }

  /** `Fiber::reset` finds the spare in state INIT, as it asserts. */
  lemma LoadCallbackKeeps(fl: Fleet, i: nat, cb: Callback)
    requires FleetInv(fl) && i < |fl.workers| && fl.workers[i].pc.Took? && fl.workers[i].pc.e.content == CallbackOf(cb)
    ensures fl.workers[i].cbFiber.Some? ==>
              fl.workers[i].cbFiber.value < |fl.fibers| && fl.fibers[fl.workers[i].cbFiber.value] == Fiber(INIT, Blank)
    ensures FleetInv(LoadCallback(fl, i, cb))
  {
    var w := fl.workers[i];
    assert WorkerFits(w, fl.fibers);
    var f := if w.cbFiber.Some? then w.cbFiber.value else |fl.fibers|;
    forall j | 0 <= j < |fl.workers| && j != i ensures !Refers(fl.workers[j], f) {
      if w.cbFiber.Some? {
        assert Refers(w, f);
      } else {
        assert WorkerFits(fl.workers[j], fl.fibers);
      }
    }
    if w.cbFiber.Some? { assert StateFits(fl.fibers[f]); }
    StepKeepsFleet(fl, i, w.(pc := CbLoaded, cbFiber := Some(f)), f, Fiber(INIT, Loaded(cb)), LoadCallback(fl, i, cb));
  }

  /** The end of the callback branch: a finished fiber is reset and kept, a held one is marked HOLD and
      let go. */
  function SettleFiber(fl: Fleet, i: nat): Fleet
    requires i < |fl.workers| && fl.workers[i].pc.Settle? && fl.workers[i].pc.f < |fl.fibers|
  {
    var w := fl.workers[i];
    var f := w.pc.f;
    var x := fl.fibers[f];
    if x.state == EXCEPT || x.state == TERM then
      fl.(fibers := fl.fibers[f := Fiber(INIT, Blank)], workers := fl.workers[i := w.(pc := Head)])
    else
      fl.(fibers := fl.fibers[f := x.(state := HOLD)], workers := fl.workers[i := w.(pc := Head, cbFiber := None)])
  }

  /** At the loop head that follows, `cb_fiber` is null or INIT. */
  lemma SettleKeeps(fl: Fleet, i: nat)
    requires FleetInv(fl) && i < |fl.workers| && fl.workers[i].pc.Settle?
    ensures fl.workers[i].pc.f < |fl.fibers| && fl.fibers[fl.workers[i].pc.f].state != READY
    ensures FleetInv(SettleFiber(fl, i))
  {
    var w := fl.workers[i];
    var f := w.pc.f;
    assert WorkerFits(w, fl.fibers) && Refers(w, f);
    assert StateFits(fl.fibers[f]);
    RunningIsMine(fl, i, f);
    var fl' := SettleFiber(fl, i);
    StepKeepsFleet(fl, i, fl'.workers[i], f, fl'.fibers[f], fl');
  }
}
