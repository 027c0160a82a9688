/** What each action does, component by component: the fiber or worker that moves, the calls, and the
    queue, table and timers. Statements about one component need not look at the others. */
module RuntimeShapes {
  import opened Common
  import opened Fleet
  import opened Tokens
  import opened Runtime
  import T = TimerSpec
  import E = EventSpec
  import QS = QueueSpec

  // ---------------------------------------------------------------- actions of a fiber

  /** The fiber swaps out. */
  predicate Leaves(a: FiberAct) { a.EndFiber? || a.IoPark? || a.SleepPark? }

  /** A closure that finds its call alive and its flag clear. */
  predicate SetsFlag(s: State, i: nat)
    requires CanBeginTimeout(s, i)
  {
    s.calls[MyPc(s, i).cb.call].result.None? && s.calls[MyPc(s, i).cb.call].cancelled.None?
  }

  function Registering(s: State, i: nat, granted: bool): E.Result
    requires CanIoAdd(s, i, granted)
  {
    E.AddEvent(s.p.table, s.calls[MyCall(s, i)].fd, s.calls[MyCall(s, i)].ev, FiberOf(Me(s, i)), granted)
  }

  function Cancelled(s: State, i: nat, granted: bool): E.Result
    requires CanCancelWait(s, i)
  {
    E.CancelEvent(s.p.table, s.calls[MyPc(s, i).c].fd, s.calls[MyPc(s, i).c].ev, granted)
  }

  /** Where the code of the acting fiber stands afterwards. */
  function NextPc(s: State, i: nat, a: FiberAct): Pc
    requires CanFiber(s, i, a)
  {
    match a
    case BeginUser => Code
    case BeginWake => Ending
    case BeginTimeout => if SetsFlag(s, i) then Cancelling(MyPc(s, i).cb.call) else Ending
    case CancelWait(_) => Ending
    case EndFiber(_) => Finished
    case IoStart(_, _, _) => IoTry(|s.calls|)
    case IoDone => Code
    case IoAgain(_, _) => IoReady(MyCall(s, i))
    case IoAdd(granted) => if Registering(s, i, granted).ok then IoYield(MyCall(s, i)) else IoFail(MyCall(s, i))
    case IoGiveUp => Code
    case IoPark => IoParked(MyCall(s, i))
    case IoDisarm => IoCheck(MyCall(s, i))
    case IoReadFlag => if s.calls[MyCall(s, i)].cancelled.Some? then Code else IoTry(MyCall(s, i))
    case SleepStart(_, _, _) => SleepYield
    case SleepPark => SleepParked
  }

  function FiberAfter(s: State, i: nat, a: FiberAct): Fiber
    requires CanFiber(s, i, a)
  {
    Fiber(if a.EndFiber? then (if a.threw then EXCEPT else TERM) else s.p.fl.fibers[Me(s, i)].state, NextPc(s, i, a))
  }

  function FleetAfter(s: State, i: nat, a: FiberAct): Fleet
    requires CanFiber(s, i, a)
  {
    if Leaves(a) then SwapOut(s.p.fl, i, FiberAfter(s, i, a)) else Goto(s.p.fl, Me(s, i), NextPc(s, i, a))
  }

  function CallsAfter(s: State, i: nat, a: FiberAct): seq<Call>
    requires CanFiber(s, i, a)
  {
    match a
    case BeginTimeout =>
      var c := MyPc(s, i).cb.call;
      if SetsFlag(s, i) then s.calls[c := s.calls[c].(cancelled := Some(MyPc(s, i).cb.k))] else s.calls
    case IoStart(fd, ev, to) => s.calls + [Call(Me(s, i), fd, ev, to, None, [], None, None)]
    case IoDone => s.calls[MyCall(s, i) := s.calls[MyCall(s, i)].(result := Some(Returned))]
    case IoAgain(a, born) =>
      var call := s.calls[MyCall(s, i)];
      if call.to.None? then s.calls else s.calls[MyCall(s, i) := call.(timer := Some(a), arms := call.arms + [born])]
    case IoGiveUp => s.calls[MyCall(s, i) := s.calls[MyCall(s, i)].(result := Some(Refused))]
    case IoReadFlag =>
      var call := s.calls[MyCall(s, i)];
      s.calls[MyCall(s, i) := if call.cancelled.Some? then call.(result := Some(TimedOut)) else call.(timer := None)]
    case _ => s.calls
  }

  function QueueAfter(s: State, i: nat, a: FiberAct): seq<Entry>
    requires CanFiber(s, i, a) && (a.CancelWait? ==> Cancelled(s, i, a.granted).Done?)
  {
    match a
    case BeginWake => s.p.queue + [Entry(FiberOf(MyPc(s, i).cb.f), -1)]
    case CancelWait(granted) => s.p.queue + Unpinned(Cancelled(s, i, granted).woken)
    case IoAdd(granted) => s.p.queue + Unpinned(Registering(s, i, granted).woken)
    case _ => s.p.queue
  }

  function TableAfter(s: State, i: nat, a: FiberAct): E.Table
    requires CanFiber(s, i, a) && (a.CancelWait? ==> Cancelled(s, i, a.granted).Done?)
  {
    match a
    case CancelWait(granted) => Cancelled(s, i, granted).table
    case IoAdd(granted) => Registering(s, i, granted).table
    case _ => s.p.table
  }

  function TimersAfter(s: State, i: nat, a: FiberAct): T.Queue
    requires T.Inv(s.p.timers) && CanFiber(s, i, a)
  {
    match a
    case IoAgain(a, born) =>
      var call := s.calls[MyCall(s, i)];
      if call.to.None? then s.p.timers
      else T.Add(s.p.timers, a, born, call.to.value, Timeout(MyCall(s, i), |call.arms|), false).0
    case IoGiveUp => Disarmed(s, MyCall(s, i)).p.timers
    case IoDisarm => Disarmed(s, MyCall(s, i)).p.timers
    case SleepStart(a, born, ms) => T.Add(s.p.timers, a, born, ms, Wake(Me(s, i)), false).0
    case _ => s.p.timers
  }

  /** The whole state after a fiber's action. */
  function Assembled(s: State, i: nat, a: FiberAct): State
    requires T.Inv(s.p.timers) && CanFiber(s, i, a) && (a.CancelWait? ==> Cancelled(s, i, a.granted).Done?)
  {
    s.(calls := CallsAfter(s, i, a),
       p := Places(QueueAfter(s, i, a), TableAfter(s, i, a), TimersAfter(s, i, a), FleetAfter(s, i, a)))
  }

  lemma CancelIsDone(s: State, i: nat, granted: bool)
    requires E.Inv(s.p.table) && CanCancelWait(s, i)
    ensures Cancelled(s, i, granted).Done?
  {
    E.CancelEventKeeps(s.p.table, s.calls[MyPc(s, i).c].fd, s.calls[MyPc(s, i).c].ev, granted);
  }


  lemma BeginningShape(s: State, i: nat, a: FiberAct)
    requires T.Inv(s.p.timers) && E.Inv(s.p.table) && CanFiber(s, i, a) && (a.BeginUser? || a.BeginWake? || a.BeginTimeout?)
    ensures DoFiber(s, i, a) == Assembled(s, i, a)
  {
    hide T.Inv, E.Inv, Goto;
  }

  lemma CancellingShape(s: State, i: nat, a: FiberAct)
    requires T.Inv(s.p.timers) && E.Inv(s.p.table) && CanFiber(s, i, a) && (a.CancelWait?)
    ensures Cancelled(s, i, a.granted).Done? && DoFiber(s, i, a) == Assembled(s, i, a)
  {
    CancelIsDone(s, i, a.granted);
    hide T.Inv, E.Inv, Goto, E.CancelEvent;
  }

  lemma EndingShape(s: State, i: nat, a: FiberAct)
    requires T.Inv(s.p.timers) && E.Inv(s.p.table) && CanFiber(s, i, a) && (a.EndFiber? || a.IoStart?)
    ensures DoFiber(s, i, a) == Assembled(s, i, a)
  {
    hide T.Inv, E.Inv, Goto, SwapOut;
  }

  lemma TryingShape(s: State, i: nat, a: FiberAct)
    requires T.Inv(s.p.timers) && E.Inv(s.p.table) && CanFiber(s, i, a) && (a.IoDone? || a.IoAgain?)
    ensures DoFiber(s, i, a) == Assembled(s, i, a)
  {
    hide T.Inv, E.Inv, Goto, T.Add;
  }

  lemma AddingShape(s: State, i: nat, a: FiberAct)
    requires T.Inv(s.p.timers) && E.Inv(s.p.table) && CanFiber(s, i, a) && (a.IoAdd?)
    ensures DoFiber(s, i, a) == Assembled(s, i, a)
  {
    hide T.Inv, E.Inv, Goto, E.AddEvent;
  }

  lemma DisarmingShape(s: State, i: nat, a: FiberAct)
    requires T.Inv(s.p.timers) && E.Inv(s.p.table) && CanFiber(s, i, a) && (a.IoGiveUp? || a.IoDisarm?)
    ensures DoFiber(s, i, a) == Assembled(s, i, a)
  {
    hide T.Inv, E.Inv, Goto, T.Cancel;
  }

  lemma CheckingShape(s: State, i: nat, a: FiberAct)
    requires T.Inv(s.p.timers) && E.Inv(s.p.table) && CanFiber(s, i, a) && (a.IoReadFlag?)
    ensures DoFiber(s, i, a) == Assembled(s, i, a)
  {
    hide T.Inv, E.Inv, Goto;
  }

  lemma ParkingShape(s: State, i: nat, a: FiberAct)
    requires T.Inv(s.p.timers) && E.Inv(s.p.table) && CanFiber(s, i, a) && (a.IoPark? || a.SleepPark? || a.SleepStart?)
    ensures DoFiber(s, i, a) == Assembled(s, i, a)
  {
    hide T.Inv, E.Inv, Goto, SwapOut, T.Add;
  }

  /** A fiber's action is what its components say. */
  lemma FiberShape(s: State, i: nat, a: FiberAct)
    requires T.Inv(s.p.timers) && E.Inv(s.p.table) && CanFiber(s, i, a)
    ensures a.CancelWait? ==> Cancelled(s, i, a.granted).Done?
    ensures DoFiber(s, i, a) == Assembled(s, i, a)
  {
    hide T.Inv, E.Inv, CanFiber, DoFiber, Assembled, Cancelled;
    match a
    case BeginUser => BeginningShape(s, i, a);
    case BeginWake => BeginningShape(s, i, a);
    case BeginTimeout => BeginningShape(s, i, a);
    case CancelWait(_) => CancellingShape(s, i, a);
    case EndFiber(_) => EndingShape(s, i, a);
    case IoStart(_, _, _) => EndingShape(s, i, a);
    case IoDone => TryingShape(s, i, a);
    case IoAgain(_, _) => TryingShape(s, i, a);
    case IoAdd(_) => AddingShape(s, i, a);
    case IoGiveUp => DisarmingShape(s, i, a);
    case IoPark => ParkingShape(s, i, a);
    case IoDisarm => DisarmingShape(s, i, a);
    case IoReadFlag => CheckingShape(s, i, a);
    case SleepStart(_, _, _) => ParkingShape(s, i, a);
    case SleepPark => ParkingShape(s, i, a);
  }

  // ---------------------------------------------------------------- actions of a worker

  /** Where the scan of worker `i` stops. */
  ghost function ScanStop(s: State, i: nat): nat {
    QS.Scan(s.p.queue, i, ExecSet(s.p.fl.fibers)).0
  }

  function Expiry(s: State, now: T.u64, probe: nat): (T.Queue, seq<Callback>)
    requires T.Inv(s.p.timers)
  {
    T.Expire(s.p.timers, now, probe)
  }

  function Dispatched(s: State, i: nat, granted: bool): E.Result
    requires CanDispatch(s, i, granted)
  {
    E.Dispatch(s.p.table, PcAt(s, i).evs[0].0, PcAt(s, i).evs[0].1, granted)
  }

  /** Where the worker stands afterwards. */
  ghost function NextWorkerPc(s: State, i: nat, a: WorkerAct): WorkerPc
    requires T.Inv(s.p.timers) && CanWorker(s, i, a)
  {
    var w := s.p.fl.workers[i];
    match a
    case Scan => if ScanStop(s, i) < |s.p.queue| then Took(s.p.queue[ScanStop(s, i)]) else if w.idleDone then Exited else IdleCheck
    case Load => CbLoaded
    case Count => if w.pc.Took? then Counted(w.pc.e.content.f, false) else Counted(w.cbFiber.value, true)
    case Enter => Inside(w.pc.f, w.pc.asCb)
    case Uncount => if w.pc.asCb then Settle(w.pc.f) else Head
    case SettleCb => Head
    case AskStop => if Stopping(s) then IdleOut else IdleWait
    case Wait(now, probe, evs) => IdleGot(Expiry(s, now, probe).1, evs)
    case ScheduleExpired => IdleDispatch(w.pc.evs)
    case DispatchOne(_) => IdleDispatch(w.pc.evs[1..])
    case LeaveWait => IdleOut
    case LeaveIdle => Head
  }

  ghost function WorkerAfter(s: State, i: nat, a: WorkerAct): Worker
    requires T.Inv(s.p.timers) && CanWorker(s, i, a)
  {
    var w := s.p.fl.workers[i];
    Worker(NextWorkerPc(s, i, a),
           if a.Load? && w.cbFiber.None? then Some(|s.p.fl.fibers|)
           else if a.SettleCb? && !Over(s, w.pc.f) then None
           else w.cbFiber,
           w.idleDone || (a.AskStop? && Stopping(s)))
  }

  predicate Over(s: State, f: FiberId) {
    f < |s.p.fl.fibers| && (s.p.fl.fibers[f].state == EXCEPT || s.p.fl.fibers[f].state == TERM)
  }

  /** The fiber that the worker's action changes or makes, and what it becomes. */
  ghost function Touched(s: State, i: nat, a: WorkerAct): Option<(FiberId, Fiber)>
    requires CanWorker(s, i, a)
  {
    var w := s.p.fl.workers[i];
    match a
    case Load => Some((if w.cbFiber.Some? then w.cbFiber.value else |s.p.fl.fibers|, Fiber(INIT, Loaded(w.pc.e.content.cb))))
    case Enter => Some((w.pc.f, Fiber(EXEC, Entered(s.p.fl.fibers[w.pc.f].pc))))
    case SettleCb =>
      Some((w.pc.f, if Over(s, w.pc.f) then Fiber(INIT, Blank) else s.p.fl.fibers[w.pc.f].(state := HOLD)))
    case _ => None
  }

  function Put(fibers: seq<Fiber>, t: Option<(FiberId, Fiber)>): seq<Fiber> {
    if t.None? then fibers
    else if t.value.0 < |fibers| then fibers[t.value.0 := t.value.1]
    else fibers + [t.value.1]
  }

  ghost function WorkersQueue(s: State, i: nat, a: WorkerAct): seq<Entry>
    requires CanWorker(s, i, a)
  {
    match a
    case Scan => if ScanStop(s, i) < |s.p.queue| then QS.Remove(s.p.queue, ScanStop(s, i)) else s.p.queue
    case ScheduleExpired => s.p.queue + Unpinned(Calls(PcAt(s, i).cbs))
    case DispatchOne(granted) => s.p.queue + Unpinned(Dispatched(s, i, granted).woken)
    case _ => s.p.queue
  }

  ghost function WorkersTable(s: State, i: nat, a: WorkerAct): E.Table
    requires CanWorker(s, i, a)
  {
    if a.DispatchOne? then Dispatched(s, i, a.granted).table else s.p.table
  }

  ghost function WorkersTimers(s: State, i: nat, a: WorkerAct): T.Queue
    requires T.Inv(s.p.timers) && CanWorker(s, i, a)
  {
    match a
    case AskStop => s.p.timers.(tickled := false)
    case Wait(now, probe, _) => Expiry(s, now, probe).0
    case _ => s.p.timers
  }

  /** Everything but the counters, which follow the worker. */
  ghost predicate WorkersShape(s: State, i: nat, a: WorkerAct, s': State)
    requires T.Inv(s.p.timers) && CanWorker(s, i, a)
  {
    && s'.p.fl.workers == s.p.fl.workers[i := WorkerAfter(s, i, a)]
    && s'.p.fl.fibers == Put(s.p.fl.fibers, Touched(s, i, a))
    && s'.p.queue == WorkersQueue(s, i, a) && s'.p.table == WorkersTable(s, i, a) && s'.p.timers == WorkersTimers(s, i, a)
    && s'.calls == s.calls && s'.clock == s.clock && s'.autostop == s.autostop && s'.late == s.late
    && s'.hasty == (s.hasty || (a.AskStop? && Stopping(s) && InFlight(s)))
  }

  lemma TakingShape(s: State, i: nat, a: WorkerAct)
    requires T.Inv(s.p.timers) && CanWorker(s, i, a) && (a.Scan?)
    ensures WorkersShape(s, i, a, DoWorker(s, i, a))
  {
    hide T.Inv, QS.Scan, Stopping, InFlight;
  }

  lemma BranchingShape(s: State, i: nat, a: WorkerAct)
    requires T.Inv(s.p.timers) && CanWorker(s, i, a) && (a.Load? || a.Count?)
    ensures WorkersShape(s, i, a, DoWorker(s, i, a))
  {
    hide T.Inv, Stopping, InFlight, IsActive, IsIdle;
  }

  lemma EnteringShape(s: State, i: nat, a: WorkerAct)
    requires T.Inv(s.p.timers) && CanWorker(s, i, a) && (a.Enter? || a.Uncount?)
    ensures WorkersShape(s, i, a, DoWorker(s, i, a))
  {
    hide T.Inv, Stopping, InFlight, IsActive, IsIdle;
  }

  lemma SettlingShape(s: State, i: nat, a: WorkerAct)
    requires T.Inv(s.p.timers) && CanWorker(s, i, a) && (a.SettleCb?)
    ensures WorkersShape(s, i, a, DoWorker(s, i, a))
  {
    hide T.Inv, Stopping, InFlight;
  }

  lemma AskingShape(s: State, i: nat, a: WorkerAct)
    requires T.Inv(s.p.timers) && CanWorker(s, i, a) && a.AskStop?
    ensures WorkersShape(s, i, a, DoWorker(s, i, a))
  {
    hide T.Inv, Stopping, InFlight, IsActive, IsIdle;
    if Stopping(s) {
      assert WorkerAfter(s, i, a) == s.p.fl.workers[i].(pc := IdleOut, idleDone := true);
    } else {
      assert WorkerAfter(s, i, a) == s.p.fl.workers[i].(pc := IdleWait);
    }
  }

  lemma WaitingShape(s: State, i: nat, a: WorkerAct)
    requires T.Inv(s.p.timers) && CanWorker(s, i, a) && (a.Wait?)
    ensures WorkersShape(s, i, a, DoWorker(s, i, a))
  {
    hide T.Inv, T.Expire, Stopping, InFlight, IsActive, IsIdle;
  }

  lemma DispatchingShape(s: State, i: nat, a: WorkerAct)
    requires T.Inv(s.p.timers) && CanWorker(s, i, a) && (a.ScheduleExpired? || a.DispatchOne?)
    ensures WorkersShape(s, i, a, DoWorker(s, i, a))
  {
    hide T.Inv, E.Dispatch, Stopping, InFlight, IsActive, IsIdle;
  }

  lemma LeavingShape(s: State, i: nat, a: WorkerAct)
    requires T.Inv(s.p.timers) && CanWorker(s, i, a) && (a.LeaveWait? || a.LeaveIdle?)
    ensures WorkersShape(s, i, a, DoWorker(s, i, a))
  {
    hide T.Inv, Stopping, InFlight, IsActive, IsIdle;
  }

  /** A worker's action is what its components say. */
  lemma WorkerShape(s: State, i: nat, a: WorkerAct)
    requires T.Inv(s.p.timers) && CanWorker(s, i, a)
    ensures WorkersShape(s, i, a, DoWorker(s, i, a))
  {
    hide T.Inv, CanWorker, DoWorker, WorkersShape;
    match a
    case Scan => TakingShape(s, i, a);
    case Load => BranchingShape(s, i, a);
    case Count => BranchingShape(s, i, a);
    case Enter => EnteringShape(s, i, a);
    case Uncount => EnteringShape(s, i, a);
    case SettleCb => SettlingShape(s, i, a);
    case AskStop => AskingShape(s, i, a);
    case Wait(_, _, _) => WaitingShape(s, i, a);
    case ScheduleExpired => DispatchingShape(s, i, a);
    case DispatchOne(_) => DispatchingShape(s, i, a);
    case LeaveWait => LeavingShape(s, i, a);
    case LeaveIdle => LeavingShape(s, i, a);
  }

  // ---------------------------------------------------------------- actions of user code

  /** User code moves no worker and no fiber; it may make a fiber. */
  ghost predicate UsersShape(s: State, a: UserAct, s': State) {
    && s'.p.fl.workers == s.p.fl.workers
    && s'.p.fl.fibers == s.p.fl.fibers + (if a.Spawn? then [Fiber(INIT, Fresh(User(a.n)))] else [])
    && s'.calls == s.calls && s'.clock == s.clock && s'.autostop == s.autostop && s'.late == s.late && s'.hasty == s.hasty
  }

  predicate OnEvents(a: UserAct) { a.UserAdd? || a.UserDel? || a.UserCancelEvent? || a.UserClose? }

  lemma EventUserShape(s: State, a: UserAct)
    requires T.Inv(s.p.timers) && CanUser(s, a) && OnEvents(a)
    ensures UsersShape(s, a, DoUser(s, a))
  {
    hide T.Inv, E.AddEvent, E.DelEvent, E.CancelEvent, E.CancelAll;
  }

  lemma OtherUserShape(s: State, a: UserAct)
    requires T.Inv(s.p.timers) && CanUser(s, a) && !OnEvents(a)
    ensures UsersShape(s, a, DoUser(s, a))
  {
    hide T.Inv, T.Add, T.Cancel, T.Refresh, T.Reset;
  }

  lemma UserShape(s: State, a: UserAct)
    requires T.Inv(s.p.timers) && CanUser(s, a)
    ensures UsersShape(s, a, DoUser(s, a))
  {
    hide T.Inv, CanUser, DoUser, UsersShape;
    if OnEvents(a) { EventUserShape(s, a); } else { OtherUserShape(s, a); }
  }

  // ---------------------------------------------------------------- what an action may touch

  /** A fiber's action moves that fiber, and its worker at most out of it. */
  ghost predicate FiberEffect(s: State, i: nat, s': State) {
    && Running(s, i)
    && |s'.p.fl.fibers| == |s.p.fl.fibers|
    && (forall g :: 0 <= g < |s.p.fl.fibers| && g != Me(s, i) ==> s'.p.fl.fibers[g] == s.p.fl.fibers[g])
    && (s'.p.fl.workers == s.p.fl.workers
        || s'.p.fl.workers == s.p.fl.workers[i := s.p.fl.workers[i].(pc := Outside(Me(s, i), PcAt(s, i).asCb))])
    && s'.hasty == s.hasty && s'.late == s.late
  }

  predicate InDoIo(a: FiberAct) {
    a.IoDone? || a.IoAgain? || a.IoAdd? || a.IoGiveUp? || a.IoPark? || a.IoDisarm? || a.IoReadFlag?
  }

  lemma FiberEffects(s: State, i: nat, a: FiberAct)
    requires T.Inv(s.p.timers) && E.Inv(s.p.table) && CanFiber(s, i, a)
    ensures FiberEffect(s, i, DoFiber(s, i, a))
  {
    FiberShape(s, i, a);
    ActsFromWithin(s, i, a);
    hide T.Inv, E.Inv, DoFiber, NextPc, CallsAfter, QueueAfter, TableAfter, TimersAfter, Cancelled, CanFiber;
  }

  /** Only a running fiber acts. */
  lemma ActsFromWithin(s: State, i: nat, a: FiberAct)
    requires CanFiber(s, i, a)
    ensures Running(s, i)
  {}

  /** A worker's action moves that worker; it changes at most a fiber it refers to, or makes a new one,
      and refers to nothing else afterwards unless it has just taken an entry. */
  ghost predicate WorkerEffect(s: State, i: nat, a: WorkerAct, s': State) {
    && i < |s.p.fl.workers| && |s'.p.fl.workers| == |s.p.fl.workers|
    && (forall j :: 0 <= j < |s.p.fl.workers| && j != i ==> s'.p.fl.workers[j] == s.p.fl.workers[j])
    && |s'.p.fl.fibers| >= |s.p.fl.fibers|
    && (forall g: FiberId :: g < |s.p.fl.fibers| && !Refers(s.p.fl.workers[i], g) ==> s'.p.fl.fibers[g] == s.p.fl.fibers[g])
    && (forall g: FiberId :: !a.Scan? && g < |s.p.fl.fibers| && Refers(s'.p.fl.workers[i], g) ==> Refers(s.p.fl.workers[i], g))
    && (s'.p.fl.workers[i].idleDone <==> s.p.fl.workers[i].idleDone || (a.AskStop? && Stopping(s)))
    && (s'.p.fl.workers[i].pc.Exited? ==> s.p.fl.workers[i].idleDone)
    && (s.hasty ==> s'.hasty) && s.late == s'.late
  }

  predicate InIdle(a: WorkerAct) {
    a.AskStop? || a.Wait? || a.ScheduleExpired? || a.DispatchOne? || a.LeaveWait? || a.LeaveIdle?
  }

  lemma TouchedIsMine(s: State, i: nat, a: WorkerAct)
    requires T.Inv(s.p.timers) && CanWorker(s, i, a) && Touched(s, i, a).Some?
    ensures var f := Touched(s, i, a).value.0; f == |s.p.fl.fibers| || (f < |s.p.fl.fibers| && Refers(s.p.fl.workers[i], f))
  {
    hide T.Inv;
  }

  lemma RefersToNothingNew(s: State, i: nat, a: WorkerAct, g: FiberId)
    requires T.Inv(s.p.timers) && CanWorker(s, i, a) && !a.Scan? && g < |s.p.fl.fibers| && Refers(WorkerAfter(s, i, a), g)
    ensures Refers(s.p.fl.workers[i], g)
  {
    hide T.Inv, Stopping, Expiry;
  }

  lemma WorkerEffects(s: State, i: nat, a: WorkerAct)
    requires T.Inv(s.p.timers) && CanWorker(s, i, a)
    ensures WorkerEffect(s, i, a, DoWorker(s, i, a))
  {
    WorkerShape(s, i, a);
    if Touched(s, i, a).Some? {
      TouchedIsMine(s, i, a);
    }
    forall g: FiberId | !a.Scan? && g < |s.p.fl.fibers| && Refers(WorkerAfter(s, i, a), g) ensures Refers(s.p.fl.workers[i], g) {
      RefersToNothingNew(s, i, a, g);
    }
    OnlyTheDoneExit(s, i, a);
    hide T.Inv, DoWorker, CanWorker, Touched, NextWorkerPc, WorkersQueue, WorkersTable, WorkersTimers, Stopping, InFlight, Refers;
  }

  lemma OnlyTheDoneExit(s: State, i: nat, a: WorkerAct)
    requires T.Inv(s.p.timers) && CanWorker(s, i, a)
    ensures i < |s.p.fl.workers|
    ensures NextWorkerPc(s, i, a).Exited? ==> s.p.fl.workers[i].idleDone
  {
    hide T.Inv, Stopping, Expiry;
  }
}
