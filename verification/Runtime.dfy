/** The runtime as one step system: worker threads in `Scheduler::run` and `IOManager::idle`, fibers in
    user code, `do_io` and `sleep`, the run queue, the event table and the timer queue. Regions under a
    lock and accesses to shared flags and counters are steps of their own, so that the theorems hold for
    all their interleavings. A counter is incremented in one step; `Counters` says what becomes of it
    otherwise. */
module Runtime {
  import opened Common
  import opened Fleet
  import opened Tokens
  import T = TimerSpec
  import E = EventSpec
  import QS = QueueSpec

  /** One call of `do_io` past its early returns. `to` is `None` for the timeout ~0; `timer` is the local
      variable of that name; `cancelled` is the field of `timer_info`, remembering which timer set it;
      `arms` are the clock readings at which this call's timers were created. The `timer_info` lives
      until the call has a result. */
  datatype Call = Call(fiber: FiberId, fd: nat, ev: E.Event, to: Option<T.u64>, timer: Option<nat>,
                       arms: seq<T.u64>, cancelled: Option<nat>, result: Option<IoResult>)

  /** `rolled`: a clock rollover was detected. `hasty`: a worker was told to stop while work was in
      flight. `late`: work came from outside after `stop`. */
  datatype State = State(clock: T.u64, calls: seq<Call>, p: Places, autostop: bool,
                         rolled: bool, hasty: bool, late: bool)

  // ---------------------------------------------------------------- views

  function PcAt(s: State, i: nat): WorkerPc
    requires i < |s.p.fl.workers|
  {
    s.p.fl.workers[i].pc
  }

  /** Worker `i` runs a fiber whose code is somewhere. */
  predicate Running(s: State, i: nat) {
    i < |s.p.fl.workers| && s.p.fl.workers[i].pc.Inside? && s.p.fl.workers[i].pc.f < |s.p.fl.fibers|
  }

  function Me(s: State, i: nat): FiberId
    requires Running(s, i)
  {
    s.p.fl.workers[i].pc.f
  }

  function MyPc(s: State, i: nat): Pc
    requires Running(s, i)
  {
    s.p.fl.fibers[Me(s, i)].pc
  }

  ghost function ExecSet(fibers: seq<Fiber>): set<FiberId> {
    set f | 0 <= f < |fibers| && fibers[f].state == EXEC
  }

  function Go(s: State, i: nat, pc: Pc): State
    requires Running(s, i)
  {
    s.(p := s.p.(fl := Goto(s.p.fl, Me(s, i), pc)))
  }

  function MoveWorker(s: State, i: nat, w: Worker): State
    requires i < |s.p.fl.workers|
  {
    s.(p := s.p.(fl := WorkerGoto(s.p.fl, i, w)))
  }

  function SetCall(s: State, c: nat, k: Call): State
    requires c < |s.calls|
  {
    s.(calls := s.calls[c := k])
  }

  /** The call a fiber's code is in. */
  function InCall(pc: Pc): Option<nat> {
    match pc
    case IoTry(c) => Some(c)
    case IoReady(c) => Some(c)
    case IoFail(c) => Some(c)
    case IoYield(c) => Some(c)
    case IoParked(c) => Some(c)
    case IoWoken(c) => Some(c)
    case IoCheck(c) => Some(c)
    case _ => None
  }

  /** The stretch of `do_io` in which its timer may still be armed. */
  predicate MayHaveTimer(pc: Pc) {
    pc.IoReady? || pc.IoFail? || pc.IoYield? || pc.IoParked? || pc.IoWoken?
  }

  // ---------------------------------------------------------------- the invariant

  /** Timer `k` of the call was armed, and its deadline has passed (a rollover voids deadlines). */
  predicate Due(call: Call, k: nat, clock: T.u64, rolled: bool) {
    k < |call.arms| && call.to.Some? && (rolled || T.Add64(call.arms[k], call.to.value) <= clock)
  }

  predicate CallOk(call: Call, clock: T.u64, rolled: bool) {
    && (call.cancelled.Some? ==> Due(call, call.cancelled.value, clock, rolled))
    && (call.result == Some(TimedOut) ==> call.cancelled.Some?)
  }

  ghost predicate CallsOk(calls: seq<Call>, clock: T.u64, rolled: bool) {
    forall c :: 0 <= c < |calls| ==> CallOk(calls[c], clock, rolled)
  }

  /** A call without a result is the one its fiber is in, and conversely. */
  ghost predicate Links(calls: seq<Call>, fibers: seq<Fiber>) {
    && (forall c :: 0 <= c < |calls| ==> calls[c].fiber < |fibers|
                                         && (calls[c].result.None? ==> InCall(fibers[calls[c].fiber].pc) == Some(c)))
    && (forall f :: 0 <= f < |fibers| && InCall(fibers[f].pc).Some? ==>
                      var c := InCall(fibers[f].pc).value;
                      c < |calls| && calls[c].fiber == f && calls[c].result.None?)
    && (forall f :: 0 <= f < |fibers| && fibers[f].pc.Cancelling? ==> fibers[f].pc.c < |calls|)
  }

  /** An armed timeout closure belongs to the latest timer of an unfinished call. */
  predicate TimeoutTimer(calls: seq<Call>, fibers: seq<Fiber>, a: nat, r: T.TimerRec) {
    r.cb.Some? && r.cb.value.Timeout? ==>
      var c, k := r.cb.value.call, r.cb.value.k;
      && c < |calls| && calls[c].timer == Some(a) && |calls[c].arms| == k + 1
      && calls[c].to.Some? && r.next == T.Add64(calls[c].arms[k], calls[c].to.value)
      && calls[c].fiber < |fibers| && InCall(fibers[calls[c].fiber].pc) == Some(c)
      && MayHaveTimer(fibers[calls[c].fiber].pc)
  }

  predicate OwnTimer(recs: T.Records, c: nat, call: Call) {
    call.timer.Some? ==>
      && call.timer.value in recs
      && (recs[call.timer.value].cb.Some? ==>
            |call.arms| > 0 && recs[call.timer.value].cb.value == Timeout(c, |call.arms| - 1))
  }

  ghost predicate TimerLinks(calls: seq<Call>, fibers: seq<Fiber>, recs: T.Records) {
    && (forall a :: a in recs ==> TimeoutTimer(calls, fibers, a, recs[a]))
    && (forall a :: a in recs && recs[a].recurring && recs[a].cb.Some? ==> recs[a].cb.value.User?)
    && (forall c :: 0 <= c < |calls| ==> OwnTimer(recs, c, calls[c]))
  }

  /** A timeout closure that was handed out is due. */
  predicate CbOk(cb: Callback, calls: seq<Call>, clock: T.u64, rolled: bool) {
    cb.Timeout? ==> cb.call < |calls| && Due(calls[cb.call], cb.k, clock, rolled)
  }

  predicate EntryOk(e: Entry, calls: seq<Call>, clock: T.u64, rolled: bool) {
    e.content.CallbackOf? ==> CbOk(e.content.cb, calls, clock, rolled)
  }

  predicate WorkerOk(w: Worker, calls: seq<Call>, clock: T.u64, rolled: bool) {
    match w.pc
    case Took(e) => EntryOk(e, calls, clock, rolled)
    case IdleGot(cbs, _) => forall n :: 0 <= n < |cbs| ==> CbOk(cbs[n], calls, clock, rolled)
    case _ => true
  }

  predicate FiberOk(x: Fiber, calls: seq<Call>, clock: T.u64, rolled: bool) {
    match x.pc
    case Loaded(cb) => CbOk(cb, calls, clock, rolled)
    case Fresh(cb) => CbOk(cb, calls, clock, rolled)
    case Begin(cb) => CbOk(cb, calls, clock, rolled)
    case _ => true
  }

  ghost predicate InHand(queue: seq<Entry>, fl: Fleet, calls: seq<Call>, clock: T.u64, rolled: bool) {
    && (forall n :: 0 <= n < |queue| ==> EntryOk(queue[n], calls, clock, rolled))
    && (forall i :: 0 <= i < |fl.workers| ==> WorkerOk(fl.workers[i], calls, clock, rolled))
    && (forall f :: 0 <= f < |fl.fibers| ==> FiberOk(fl.fibers[f], calls, clock, rolled))
  }

  /** Event slots hold fibers and user callbacks only. */
  ghost predicate SlotsClean(t: E.Table) {
    forall cb: Callback :: !cb.User? ==> E.Waiting(t, CallbackOf(cb)) == 0
  }

  ghost predicate CallInv(s: State) {
    && CallsOk(s.calls, s.clock, s.rolled)
    && Links(s.calls, s.p.fl.fibers)
    && TimerLinks(s.calls, s.p.fl.fibers, s.p.timers.recs)
    && InHand(s.p.queue, s.p.fl, s.calls, s.clock, s.rolled)
    && SlotsClean(s.p.table)
  }

  ghost predicate SysInv(s: State) {
    && FleetInv(s.p.fl)
    && TokenInv(s.p)
    && T.Inv(s.p.timers)
    && E.Inv(s.p.table)
    && CallInv(s)
  }

  // ---------------------------------------------------------------- stopping

  /** `IOManager::stopping()`. */
  predicate Stopping(s: State) {
    && s.p.timers.armed == []
    && s.autostop && s.p.queue == [] && s.p.fl.active == 0
    && s.p.table.pending == 0
  }

  /** Work in a worker's local variables that no counter shows: an entry taken and not yet counted, or
      expired callbacks not yet scheduled. */
  predicate Carrying(w: Worker) {
    w.pc.Took? || w.pc.CbLoaded? || (w.pc.IdleGot? && w.pc.cbs != [])
  }

  predicate InFlight(s: State) {
    exists i :: 0 <= i < |s.p.fl.workers| && Carrying(s.p.fl.workers[i])
  }

  // ---------------------------------------------------------------- the actions of a worker

  datatype WorkerAct =
    // Scheduler::run
    | Scan
    | Load
    | Count
    | Enter
    | Uncount
    | SettleCb
    // IOManager::idle
    | AskStop
    | Wait(now: T.u64, probe: nat, evs: seq<(nat, E.Mask)>)
    | ScheduleExpired
    | DispatchOne(granted: bool)
    | LeaveWait
    | LeaveIdle

  /** What the fiber on a worker does. */
  datatype FiberAct =
    | BeginUser
    | BeginWake
    | BeginTimeout
    | CancelWait(granted: bool)
    | EndFiber(threw: bool)
    | IoStart(fd: nat, ev: E.Event, to: Option<T.u64>)
    | IoDone
    | IoAgain(a: nat, born: T.u64)
    | IoAdd(granted: bool)
    | IoGiveUp
    | IoPark
    | IoDisarm
    | IoReadFlag
    | SleepStart(a: nat, born: T.u64, ms: T.u64)
    | SleepPark

  /** What user code does, in a fiber or in a thread of its own. */
  datatype UserAct =
    | Submit(n: nat, thread: int)
    | Spawn(n: nat, thread: int)
    | UserTimer(a: nat, born: T.u64, ms: T.u64, n: nat, recurring: bool)
    | UserCancel(a: nat)
    | UserRefresh(a: nat)
    | UserReset(a: nat, ms: T.u64, fromNow: bool)
    | UserAdd(fd: nat, ev: E.Event, n: nat, granted: bool)
    | UserDel(fd: nat, ev: E.Event, granted: bool)
    | UserCancelEvent(fd: nat, ev: E.Event, granted: bool)
    | UserClose(fd: nat, granted: bool)

  datatype Action =
    | ByWorker(i: nat, w: WorkerAct)
    | ByFiber(i: nat, f: FiberAct)
    | ByUser(who: Option<nat>, u: UserAct)
    | Tick(t: T.u64)
    | Stop

  /** The scan of the run loop, and what follows when it finds nothing. */
  ghost function DoScan(s: State, i: nat): State
    requires i < |s.p.fl.workers|
  {
    var w := s.p.fl.workers[i];
    var n := QS.Scan(s.p.queue, i, ExecSet(s.p.fl.fibers)).0;
    if n < |s.p.queue| then
      MoveWorker(s.(p := s.p.(queue := QS.Remove(s.p.queue, n))), i, w.(pc := Took(s.p.queue[n])))
    else MoveWorker(s, i, w.(pc := if w.idleDone then Exited else IdleCheck))
  }

  /** A callback goes into `cb_fiber`. */
  predicate CanLoad(s: State, i: nat) {
    && i < |s.p.fl.workers| && PcAt(s, i).Took? && PcAt(s, i).e.content.CallbackOf?
    && (s.p.fl.workers[i].cbFiber.Some? ==> s.p.fl.workers[i].cbFiber.value < |s.p.fl.fibers|)
  }

  function DoLoad(s: State, i: nat): State
    requires CanLoad(s, i)
  {
    s.(p := s.p.(fl := LoadCallback(s.p.fl, i, PcAt(s, i).e.content.cb)))
  }

  /** `++m_activeThreadCount`. */
  predicate CanCount(s: State, i: nat) {
    && i < |s.p.fl.workers|
    && ((PcAt(s, i).Took? && PcAt(s, i).e.content.FiberOf?) || (PcAt(s, i).CbLoaded? && s.p.fl.workers[i].cbFiber.Some?))
  }

  function DoCount(s: State, i: nat): State
    requires CanCount(s, i)
  {
    var w := s.p.fl.workers[i];
    MoveWorker(s, i, w.(pc := if w.pc.Took? then Counted(w.pc.e.content.f, false) else Counted(w.cbFiber.value, true)))
  }

  predicate CanEnter(s: State, i: nat) {
    i < |s.p.fl.workers| && PcAt(s, i).Counted? && PcAt(s, i).f < |s.p.fl.fibers|
  }

  function DoEnter(s: State, i: nat): State
    requires CanEnter(s, i)
  {
    s.(p := s.p.(fl := SwapIn(s.p.fl, i)))
  }

  /** `--m_activeThreadCount`. */
  predicate CanUncount(s: State, i: nat) { i < |s.p.fl.workers| && PcAt(s, i).Outside? }

  function DoUncount(s: State, i: nat): State
    requires CanUncount(s, i)
  {
    var w := s.p.fl.workers[i];
    MoveWorker(s, i, w.(pc := if w.pc.asCb then Settle(w.pc.f) else Head))
  }

  predicate CanSettle(s: State, i: nat) {
    i < |s.p.fl.workers| && PcAt(s, i).Settle? && PcAt(s, i).f < |s.p.fl.fibers|
  }

  function DoSettle(s: State, i: nat): State
    requires CanSettle(s, i)
  {
    s.(p := s.p.(fl := SettleFiber(s.p.fl, i)))
  }

  /** The stop check at the head of the idle loop; `getNextTimer` clears `m_tickled`. */
  predicate CanAskStop(s: State, i: nat) { i < |s.p.fl.workers| && PcAt(s, i).IdleCheck? }

  function DoAskStop(s: State, i: nat): State
    requires CanAskStop(s, i)
  {
    var w := s.p.fl.workers[i];
    var s1 := s.(p := s.p.(timers := s.p.timers.(tickled := false)));
    if Stopping(s) then
      MoveWorker(s1, i, w.(pc := IdleOut, idleDone := true)).(hasty := s.hasty || InFlight(s))
    else MoveWorker(s1, i, w.(pc := IdleWait))
  }

  /** The wait is over with some reported events; `listExpiredCb` runs with an earlier clock reading. */
  predicate CanWait(s: State, i: nat, now: T.u64) {
    i < |s.p.fl.workers| && PcAt(s, i).IdleWait? && now <= s.clock
  }

  function DoWait(s: State, i: nat, now: T.u64, probe: nat, evs: seq<(nat, E.Mask)>): State
    requires CanWait(s, i, now) && T.Inv(s.p.timers)
  {
    var r := T.Expire(s.p.timers, now, probe);
    MoveWorker(s.(p := s.p.(timers := r.0),
                  rolled := s.rolled || (s.p.timers.armed != [] && T.Rollover(s.p.timers.prev, now))),
               i, s.p.fl.workers[i].(pc := IdleGot(r.1, evs)))
  }

  predicate CanScheduleExpired(s: State, i: nat) { i < |s.p.fl.workers| && PcAt(s, i).IdleGot? }

  function DoScheduleExpired(s: State, i: nat): State
    requires CanScheduleExpired(s, i)
  {
    var w := s.p.fl.workers[i];
    MoveWorker(s.(p := s.p.(queue := s.p.queue + Unpinned(Calls(w.pc.cbs)))), i, w.(pc := IdleDispatch(w.pc.evs)))
  }

  /** One turn of the dispatch loop; a turn that fails its assertion ends the process. */
  predicate CanDispatch(s: State, i: nat, granted: bool) {
    && i < |s.p.fl.workers| && PcAt(s, i).IdleDispatch? && PcAt(s, i).evs != []
    && E.Dispatch(s.p.table, PcAt(s, i).evs[0].0, PcAt(s, i).evs[0].1, granted).Done?
  }

  function DoDispatch(s: State, i: nat, granted: bool): State
    requires CanDispatch(s, i, granted)
  {
    var w := s.p.fl.workers[i];
    var r := E.Dispatch(s.p.table, w.pc.evs[0].0, w.pc.evs[0].1, granted);
    MoveWorker(Woken(s, r), i, w.(pc := IdleDispatch(w.pc.evs[1..])))
  }

  /** The table after an operation, with what it woke at the end of the queue. */
  function Woken(s: State, r: E.Result): State
    requires r.Done?
  {
    s.(p := s.p.(table := r.table, queue := s.p.queue + Unpinned(r.woken)))
  }

  predicate CanLeaveWait(s: State, i: nat) {
    i < |s.p.fl.workers| && PcAt(s, i).IdleDispatch? && PcAt(s, i).evs == []
  }

  predicate CanLeaveIdle(s: State, i: nat) { i < |s.p.fl.workers| && PcAt(s, i).IdleOut? }

  // ---------------------------------------------------------------- the actions of a fiber

  predicate CanBegin(s: State, i: nat) { Running(s, i) && MyPc(s, i).Begin? }

  /** The closure of `sleep`: `schedule(fiber, -1)`. */
  function DoBeginWake(s: State, i: nat): State
    requires CanBegin(s, i) && MyPc(s, i).cb.Wake?
  {
    Go(s.(p := s.p.(queue := s.p.queue + [Entry(FiberOf(MyPc(s, i).cb.f), -1)])), i, Ending)
  }

  predicate CanBeginTimeout(s: State, i: nat) {
    CanBegin(s, i) && MyPc(s, i).cb.Timeout? && MyPc(s, i).cb.call < |s.calls|
  }

  /** The closure of a condition timer: nothing when the call is over or already cancelled. */
  function DoBeginTimeout(s: State, i: nat): State
    requires CanBeginTimeout(s, i)
  {
    var c := MyPc(s, i).cb.call;
    var call := s.calls[c];
    if call.result.Some? || call.cancelled.Some? then Go(s, i, Ending)
    else SetCall(Go(s, i, Cancelling(c)), c, call.(cancelled := Some(MyPc(s, i).cb.k)))
  }

  predicate CanCancelWait(s: State, i: nat) {
    Running(s, i) && MyPc(s, i).Cancelling? && MyPc(s, i).c < |s.calls|
  }

  function DoCancelWait(s: State, i: nat, granted: bool): (s': State)
    requires CanCancelWait(s, i) && E.Inv(s.p.table)
  {
    var call := s.calls[MyPc(s, i).c];
    E.CancelEventKeeps(s.p.table, call.fd, call.ev, granted);
    Go(Woken(s, E.CancelEvent(s.p.table, call.fd, call.ev, granted)), i, Ending)
  }

  predicate CanEnd(s: State, i: nat) { Running(s, i) && (MyPc(s, i).Code? || MyPc(s, i).Ending?) }

  function DoEnd(s: State, i: nat, threw: bool): State
    requires CanEnd(s, i)
  {
    s.(p := s.p.(fl := SwapOut(s.p.fl, i, Fiber(if threw then EXCEPT else TERM, Finished))))
  }

  predicate InCode(s: State, i: nat) { Running(s, i) && MyPc(s, i).Code? }

  function DoIoStart(s: State, i: nat, fd: nat, ev: E.Event, to: Option<T.u64>): State
    requires InCode(s, i)
  {
    Go(s, i, IoTry(|s.calls|)).(calls := s.calls + [Call(Me(s, i), fd, ev, to, None, [], None, None)])
  }

  /** The fiber is at some point of the call `c`. */
  predicate AtCall(s: State, i: nat) {
    Running(s, i) && InCall(MyPc(s, i)).Some? && InCall(MyPc(s, i)).value < |s.calls|
  }

  function MyCall(s: State, i: nat): nat
    requires AtCall(s, i)
  {
    InCall(MyPc(s, i)).value
  }

  /** The call returns with `r`. */
  function Return(s: State, i: nat, r: IoResult): State
    requires AtCall(s, i)
  {
    SetCall(Go(s, i, Code), MyCall(s, i), s.calls[MyCall(s, i)].(result := Some(r)))
  }

  predicate CanIoAgain(s: State, i: nat, a: nat, born: T.u64) {
    AtCall(s, i) && MyPc(s, i).IoTry? && a !in s.p.timers.recs && born <= s.clock
  }

  /** EAGAIN: the condition timer is created and armed, if there is a timeout. */
  function DoIoAgain(s: State, i: nat, a: nat, born: T.u64): State
    requires CanIoAgain(s, i, a, born) && T.Inv(s.p.timers)
  {
    var c := MyCall(s, i);
    var call := s.calls[c];
    var s1 := Go(s, i, IoReady(c));
    if call.to.None? then s1
    else
      var q := T.Add(s.p.timers, a, born, call.to.value, Timeout(c, |call.arms|), false).0;
      SetCall(s1.(p := s1.p.(timers := q)), c, call.(timer := Some(a), arms := call.arms + [born]))
  }

  predicate CanIoAdd(s: State, i: nat, granted: bool) {
    && AtCall(s, i) && MyPc(s, i).IoReady? && |s.p.table.ctxs| >= 32
    && E.AddEvent(s.p.table, s.calls[MyCall(s, i)].fd, s.calls[MyCall(s, i)].ev, FiberOf(Me(s, i)), granted).Done?
  }

  /** `addEvent` for the calling fiber; a direction that already has a waiter ends the process. */
  function DoIoAdd(s: State, i: nat, granted: bool): State
    requires CanIoAdd(s, i, granted)
  {
    var c := MyCall(s, i);
    var r := E.AddEvent(s.p.table, s.calls[c].fd, s.calls[c].ev, FiberOf(Me(s, i)), granted);
    Go(Woken(s, r), i, if r.ok then IoYield(c) else IoFail(c))
  }

  /** `if (timer) timer->cancel()`. */
  function Disarmed(s: State, c: nat): State
    requires c < |s.calls| && T.Inv(s.p.timers)
    requires s.calls[c].timer.Some? ==> s.calls[c].timer.value in s.p.timers.recs
  {
    if s.calls[c].timer.None? then s
    else s.(p := s.p.(timers := T.Cancel(s.p.timers, s.calls[c].timer.value).0))
  }

  predicate CanDisarm(s: State, i: nat) {
    && AtCall(s, i)
    && (s.calls[MyCall(s, i)].timer.Some? ==> s.calls[MyCall(s, i)].timer.value in s.p.timers.recs)
  }

  function DoIoGiveUp(s: State, i: nat): State
    requires CanDisarm(s, i) && T.Inv(s.p.timers)
  {
    Return(Disarmed(s, MyCall(s, i)), i, Refused)
  }

  function DoPark(s: State, i: nat, pc: Pc): State
    requires Running(s, i)
  {
    s.(p := s.p.(fl := SwapOut(s.p.fl, i, Fiber(s.p.fl.fibers[Me(s, i)].state, pc))))
  }

  function DoIoDisarm(s: State, i: nat): State
    requires CanDisarm(s, i) && T.Inv(s.p.timers)
  {
    Go(Disarmed(s, MyCall(s, i)), i, IoCheck(MyCall(s, i)))
  }

  /** ETIMEDOUT, or once more from `retry`. */
  function DoIoReadFlag(s: State, i: nat): State
    requires AtCall(s, i)
  {
    var c := MyCall(s, i);
    if s.calls[c].cancelled.Some? then Return(s, i, TimedOut)
    else SetCall(Go(s, i, IoTry(c)), c, s.calls[c].(timer := None))
  }

  predicate CanSleep(s: State, i: nat, a: nat, born: T.u64) {
    InCode(s, i) && a !in s.p.timers.recs && born <= s.clock
  }

  function DoSleepStart(s: State, i: nat, a: nat, born: T.u64, ms: T.u64): State
    requires CanSleep(s, i, a, born) && T.Inv(s.p.timers)
  {
    var s1 := Go(s, i, SleepYield);
    s1.(p := s1.p.(timers := T.Add(s.p.timers, a, born, ms, Wake(Me(s, i)), false).0))
  }

  // ---------------------------------------------------------------- the actions of user code

  /** Who acts: the fiber on a worker, in user code, or some other thread. */
  predicate Actor(s: State, who: Option<nat>) { who.Some? ==> InCode(s, who.value) }

  function Queued(s: State, e: Entry): State {
    s.(p := s.p.(queue := s.p.queue + [e]))
  }

  function DoSubmit(s: State, n: nat, thread: int): State {
    Queued(s, Entry(CallbackOf(User(n)), thread))
  }

  /** A new fiber, handed to `schedule`. */
  function DoSpawn(s: State, n: nat, thread: int): State {
    var fl := s.p.fl.(fibers := s.p.fl.fibers + [Fiber(INIT, Fresh(User(n)))]);
    Queued(s.(p := s.p.(fl := fl)), Entry(FiberOf(|s.p.fl.fibers|), thread))
  }

  function WithTimers(s: State, q: T.Queue): State {
    s.(p := s.p.(timers := q))
  }

  /** Only timers of the program's own are within its reach. */
  predicate UsersTimer(s: State, a: nat) {
    a in s.p.timers.recs && (s.p.timers.recs[a].cb.Some? ==> s.p.timers.recs[a].cb.value.User?)
  }

  predicate CanUserAdd(s: State, fd: nat, ev: E.Event, n: nat, granted: bool) {
    |s.p.table.ctxs| >= 32 && E.AddEvent(s.p.table, fd, ev, CallbackOf(User(n)), granted).Done?
  }

  /** `delEvent` is not used on a fiber's registration. */
  predicate CanUserDel(s: State, fd: nat, ev: E.Event, granted: bool) {
    && (fd < |s.p.table.ctxs| ==> s.p.table.ctxs[fd].Get(ev).fiber.None?)
    && E.DelEvent(s.p.table, fd, ev, granted).Done?
  }

  // ---------------------------------------------------------------- enabledness and effect

  ghost predicate CanWorker(s: State, i: nat, a: WorkerAct) {
    match a
    case Scan => i < |s.p.fl.workers| && PcAt(s, i).Head?
    case Load => CanLoad(s, i)
    case Count => CanCount(s, i)
    case Enter => CanEnter(s, i)
    case Uncount => CanUncount(s, i)
    case SettleCb => CanSettle(s, i)
    case AskStop => CanAskStop(s, i)
    case Wait(now, _, _) => CanWait(s, i, now)
    case ScheduleExpired => CanScheduleExpired(s, i)
    case DispatchOne(granted) => CanDispatch(s, i, granted)
    case LeaveWait => CanLeaveWait(s, i)
    case LeaveIdle => CanLeaveIdle(s, i)
  }

  ghost function DoWorker(s: State, i: nat, a: WorkerAct): State
    requires T.Inv(s.p.timers) && CanWorker(s, i, a)
  {
    match a
    case Scan => DoScan(s, i)
    case Load => DoLoad(s, i)
    case Count => DoCount(s, i)
    case Enter => DoEnter(s, i)
    case Uncount => DoUncount(s, i)
    case SettleCb => DoSettle(s, i)
    case AskStop => DoAskStop(s, i)
    case Wait(now, probe, evs) => DoWait(s, i, now, probe, evs)
    case ScheduleExpired => DoScheduleExpired(s, i)
    case DispatchOne(granted) => DoDispatch(s, i, granted)
    case LeaveWait => MoveWorker(s, i, s.p.fl.workers[i].(pc := IdleOut))
    case LeaveIdle => MoveWorker(s, i, s.p.fl.workers[i].(pc := Head))
  }

  predicate CanFiber(s: State, i: nat, a: FiberAct) {
    match a
    case BeginUser => CanBegin(s, i) && MyPc(s, i).cb.User?
    case BeginWake => CanBegin(s, i) && MyPc(s, i).cb.Wake?
    case BeginTimeout => CanBeginTimeout(s, i)
    case CancelWait(_) => CanCancelWait(s, i)
    case EndFiber(_) => CanEnd(s, i)
    case IoStart(_, _, _) => InCode(s, i)
    case IoDone => AtCall(s, i) && MyPc(s, i).IoTry?
    case IoAgain(a, born) => CanIoAgain(s, i, a, born)
    case IoAdd(granted) => CanIoAdd(s, i, granted)
    case IoGiveUp => CanDisarm(s, i) && MyPc(s, i).IoFail?
    case IoPark => AtCall(s, i) && MyPc(s, i).IoYield?
    case IoDisarm => CanDisarm(s, i) && MyPc(s, i).IoWoken?
    case IoReadFlag => AtCall(s, i) && MyPc(s, i).IoCheck?
    case SleepStart(a, born, _) => CanSleep(s, i, a, born)
    case SleepPark => Running(s, i) && MyPc(s, i).SleepYield?
  }

  ghost function DoFiber(s: State, i: nat, a: FiberAct): State
    requires T.Inv(s.p.timers) && E.Inv(s.p.table) && CanFiber(s, i, a)
  {
    match a
    case BeginUser => Go(s, i, Code)
    case BeginWake => DoBeginWake(s, i)
    case BeginTimeout => DoBeginTimeout(s, i)
    case CancelWait(granted) => DoCancelWait(s, i, granted)
    case EndFiber(threw) => DoEnd(s, i, threw)
    case IoStart(fd, ev, to) => DoIoStart(s, i, fd, ev, to)
    case IoDone => Return(s, i, Returned)
    case IoAgain(a, born) => DoIoAgain(s, i, a, born)
    case IoAdd(granted) => DoIoAdd(s, i, granted)
    case IoGiveUp => DoIoGiveUp(s, i)
    case IoPark => DoPark(s, i, IoParked(MyCall(s, i)))
    case IoDisarm => DoIoDisarm(s, i)
    case IoReadFlag => DoIoReadFlag(s, i)
    case SleepStart(a, born, ms) => DoSleepStart(s, i, a, born, ms)
    case SleepPark => DoPark(s, i, SleepParked)
  }

  predicate CanUser(s: State, a: UserAct) {
    match a
    case Submit(_, _) => true
    case Spawn(_, _) => true
    case UserTimer(a, born, _, _, _) => a !in s.p.timers.recs && born <= s.clock
    case UserCancel(a) => UsersTimer(s, a)
    case UserRefresh(a) => UsersTimer(s, a)
    case UserReset(a, _, _) => UsersTimer(s, a)
    case UserAdd(fd, ev, n, granted) => CanUserAdd(s, fd, ev, n, granted)
    case UserDel(fd, ev, granted) => CanUserDel(s, fd, ev, granted)
    case UserCancelEvent(fd, ev, granted) => E.CancelEvent(s.p.table, fd, ev, granted).Done?
    case UserClose(fd, granted) => E.CancelAll(s.p.table, fd, granted).Done?
  }

  function DoUser(s: State, a: UserAct): State
    requires T.Inv(s.p.timers) && CanUser(s, a)
  {
    match a
    case Submit(n, thread) => DoSubmit(s, n, thread)
    case Spawn(n, thread) => DoSpawn(s, n, thread)
    case UserTimer(a, born, ms, n, recurring) => WithTimers(s, T.Add(s.p.timers, a, born, ms, User(n), recurring).0)
    case UserCancel(a) => WithTimers(s, T.Cancel(s.p.timers, a).0)
    case UserRefresh(a) => WithTimers(s, T.Refresh(s.p.timers, a, s.clock).0)
    case UserReset(a, ms, fromNow) => WithTimers(s, T.Reset(s.p.timers, a, ms, fromNow, s.clock).0)
    case UserAdd(fd, ev, n, granted) => Woken(s, E.AddEvent(s.p.table, fd, ev, CallbackOf(User(n)), granted))
    case UserDel(fd, ev, granted) => Woken(s, E.DelEvent(s.p.table, fd, ev, granted))
    case UserCancelEvent(fd, ev, granted) => Woken(s, E.CancelEvent(s.p.table, fd, ev, granted))
    case UserClose(fd, granted) => Woken(s, E.CancelAll(s.p.table, fd, granted))
  }

  ghost predicate Can(s: State, a: Action) {
    match a
    case ByWorker(i, w) => CanWorker(s, i, w)
    case ByFiber(i, f) => CanFiber(s, i, f)
    case ByUser(who, u) => Actor(s, who) && CanUser(s, u)
    case Tick(t) => s.clock <= t
    case Stop => true
  }

  ghost function Do(s: State, a: Action): State
    requires T.Inv(s.p.timers) && E.Inv(s.p.table) && Can(s, a)
  {
    match a
    case ByWorker(i, w) => DoWorker(s, i, w)
    case ByFiber(i, f) => DoFiber(s, i, f)
    case ByUser(who, u) => DoUser(s, u).(late := s.late || (who.None? && s.autostop))
    case Tick(t) => s.(clock := t)
    case Stop => s.(autostop := true)
  }
}
