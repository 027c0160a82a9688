/** Tables of runs, stage by stage, and that each action leads from one stage to the next. */
module RuntimeTables {
  import opened Common
  import opened Fleet
  import opened Tokens
  import opened Runtime
  import T = TimerSpec
  import E = EventSpec
  import EventSteps
  import QS = QueueSpec

  /** The action leads from one state to the other. */
  ghost predicate Steps(s: State, a: Action, s': State) {
    T.Inv(s.p.timers) && E.Inv(s.p.table) && Can(s, a) && Do(s, a) == s'
  }

  // ---------------------------------------------------------------- stages

  /** A state at clock 0 with the event table `t`, in which no event is registered. */
  function Scene(t: E.Table, calls: seq<Call>, queue: seq<Entry>, timers: T.Queue, fibers: seq<Fiber>, workers: seq<Worker>, active: int, idle: int,
                 autostop: bool, hasty: bool): State
  {
    State(0, calls, Places(queue, t, timers, Fleet(fibers, workers, active, idle)), autostop, false, hasty, false)
  }

  function NoEvents(): E.Table { E.Table(E.Resize([], 32), 0, map[]) }

  function NoTimers(): T.Queue { T.Queue(map[], [], false, 0) }

  /** One timer that is due at once: armed at the front, seen by `getNextTimer`, handed out. */
  function Armed0(cb: Callback): T.Queue { T.Queue(map[0 := T.TimerRec(0, 0, false, Some(cb))], [0], true, 0) }
  function Untickled(cb: Callback): T.Queue { Armed0(cb).(tickled := false) }
  function Fired(cb: Callback): T.Queue { T.Queue(map[0 := T.TimerRec(0, 0, false, None)], [], false, 0) }

  predicate Empty(t: E.Table) { t.pending == 0 }

  lemma EmptyFirst()
    ensures E.Inv(NoEvents()) && Empty(NoEvents())
  {
    EventSteps.EmptyTable();
  }

  lemma Sound(cb: Callback)
    ensures T.Inv(NoTimers()) && T.Inv(Armed0(cb)) && T.Inv(Untickled(cb)) && T.Inv(Fired(cb))
  {}

  /** What the stop check looks at. */
  lemma Asks(cb: Callback)
    ensures NoTimers().armed == Fired(cb).armed == [] && !NoTimers().tickled && !Fired(cb).tickled
    ensures Armed0(cb).armed == [0] && Armed0(cb).(tickled := false) == Untickled(cb)
  {}

  lemma Arms(cb: Callback)
    ensures T.Inv(NoTimers()) && 0 !in NoTimers().recs && T.Add(NoTimers(), 0, 0, 0, cb, false).0 == Armed0(cb)
  {}

  lemma Expires(cb: Callback)
    ensures T.Inv(Untickled(cb)) && T.Expire(Untickled(cb), 0, 0) == (Fired(cb), [cb])
    ensures !T.Rollover(Untickled(cb).prev, 0)
  {
    FiresOne(cb);
  }

  lemma Schedules(cb: Callback)
    ensures Unpinned(Calls([cb])) == [Entry(CallbackOf(cb), -1)]
  {
    assert Calls([cb])[1..] == [];
  }

  lemma HasMember(xs: seq<nat>)
    requires xs != []
    ensures xs[0] in xs
  {}

  lemma FiresOne(cb: Callback)
    ensures T.Inv(Untickled(cb)) && T.Expire(Untickled(cb), 0, 0) == (Fired(cb), [cb])
  {
    var q := Untickled(cb);
    T.ExpireExact(q, 0, 0);
    var r := T.Expire(q, 0, 0);
    assert !T.Rollover(0, 0) && T.Due(q, 0, q.armed[0]);
    assert |r.1| == 1 && Some(r.1[0]) == Some(cb) && r.1 == [cb];
    assert r.0.recs == Fired(cb).recs;
    if r.0.armed != [] {
      HasMember(r.0.armed);
    }
    hide T.Inv;
    assert r.0.prev == 0 && !r.0.tickled;
  }

  const IDLER: Worker := Worker(Head, None, false)
  const JOB: Entry := Entry(CallbackOf(User(0)), -1)

  // ---------------------------------------------------------------- single actions

  /** Two states with equal components. */
  predicate Alike(r: State, s: State) {
    && r.p.fl.workers == s.p.fl.workers && r.p.fl.fibers == s.p.fl.fibers && r.p.queue == s.p.queue && r.calls == s.calls
    && r.p.fl.active == s.p.fl.active && r.p.fl.idle == s.p.fl.idle && r.p.timers == s.p.timers && r.p.table == s.p.table
    && r.clock == s.clock && r.autostop == s.autostop && r.rolled == s.rolled && r.hasty == s.hasty && r.late == s.late
  }

  function ActiveOf(w: Worker): int { if w.pc.Counted? || w.pc.Inside? || w.pc.Outside? then 1 else 0 }

  function IdleOf(w: Worker): int {
    if w.pc.IdleCheck? || w.pc.IdleWait? || w.pc.IdleGot? || w.pc.IdleDispatch? || w.pc.IdleOut? then 1 else 0
  }

  /** Worker `i` moves to `w`, and the counters follow. */
  function Moved(s: State, i: nat, w: Worker): State
    requires i < |s.p.fl.workers|
  {
    var fl := s.p.fl;
    s.(p := s.p.(fl := Fleet(fl.fibers, fl.workers[i := w], fl.active - ActiveOf(fl.workers[i]) + ActiveOf(w),
                             fl.idle - IdleOf(fl.workers[i]) + IdleOf(w))))
  }

  predicate Free(s: State, e: Entry) {
    e.content.FiberOf? ==> e.content.f < |s.p.fl.fibers| && s.p.fl.fibers[e.content.f].state != EXEC
  }

  lemma OnScanTake(s: State, i: nat, s': State)
    requires T.Inv(s.p.timers) && E.Inv(s.p.table) && i < |s.p.fl.workers| && PcAt(s, i).Head?
    requires |s.p.queue| == 1 && !QS.PinnedElsewhere(s.p.queue[0], i) && Free(s, s.p.queue[0])
    requires Alike(Moved(s.(p := s.p.(queue := [])), i, s.p.fl.workers[i].(pc := Took(s.p.queue[0]))), s')
    ensures Steps(s, ByWorker(i, Scan), s')
  {
    hide T.Inv, E.Inv, Stopping, InFlight;
    assert QS.Remove(s.p.queue, 0) == [];
  }

  lemma OnScanNone(s: State, i: nat, s': State)
    requires T.Inv(s.p.timers) && E.Inv(s.p.table) && i < |s.p.fl.workers| && PcAt(s, i).Head?
    requires |s.p.queue| <= 1 && (s.p.queue != [] ==> QS.PinnedElsewhere(s.p.queue[0], i))
    requires Alike(Moved(s, i, s.p.fl.workers[i].(pc := if s.p.fl.workers[i].idleDone then Exited else IdleCheck)), s')
    ensures Steps(s, ByWorker(i, Scan), s')
  {
    hide T.Inv, E.Inv, Stopping, InFlight;
    assert s.p.queue == [] || s.p.queue[1..] == [];
  }

  lemma OnLoad(s: State, i: nat, s': State)
    requires T.Inv(s.p.timers) && E.Inv(s.p.table) && i < |s.p.fl.workers| && CanLoad(s, i)
    requires Alike(DoLoad(s, i), s')
    ensures Steps(s, ByWorker(i, Load), s')
  {
    hide T.Inv, E.Inv, Stopping, InFlight;
  }

  lemma OnCount(s: State, i: nat, s': State)
    requires T.Inv(s.p.timers) && E.Inv(s.p.table) && i < |s.p.fl.workers| && CanCount(s, i)
    requires Alike(Moved(s, i, s.p.fl.workers[i].(pc := if PcAt(s, i).Took? then Counted(PcAt(s, i).e.content.f, false)
                                                         else Counted(s.p.fl.workers[i].cbFiber.value, true))), s')
    ensures Steps(s, ByWorker(i, Count), s')
  {
    hide T.Inv, E.Inv, Stopping, InFlight;
  }

  lemma OnEnter(s: State, i: nat, s': State)
    requires T.Inv(s.p.timers) && E.Inv(s.p.table) && i < |s.p.fl.workers| && CanEnter(s, i)
    requires Alike(DoEnter(s, i), s')
    ensures Steps(s, ByWorker(i, Enter), s')
  {
    hide T.Inv, E.Inv, Stopping, InFlight;
  }

  lemma OnUncount(s: State, i: nat, s': State)
    requires T.Inv(s.p.timers) && E.Inv(s.p.table) && i < |s.p.fl.workers| && CanUncount(s, i)
    requires Alike(Moved(s, i, s.p.fl.workers[i].(pc := if PcAt(s, i).asCb then Settle(PcAt(s, i).f) else Head)), s')
    ensures Steps(s, ByWorker(i, Uncount), s')
  {
    hide T.Inv, E.Inv, Stopping, InFlight;
  }

  lemma OnSettleCb(s: State, i: nat, s': State)
    requires T.Inv(s.p.timers) && E.Inv(s.p.table) && i < |s.p.fl.workers| && CanSettle(s, i)
    requires Alike(DoSettle(s, i), s')
    ensures Steps(s, ByWorker(i, SettleCb), s')
  {
    hide T.Inv, E.Inv, Stopping, InFlight;
  }

  function Untickle(s: State): State { s.(p := s.p.(timers := s.p.timers.(tickled := false))) }

  lemma OnAskedYes(s: State, i: nat, inFlight: bool, s': State)
    requires T.Inv(s.p.timers) && E.Inv(s.p.table) && CanAskStop(s, i)
    requires s.p.timers.armed == [] && s.autostop && s.p.queue == [] && s.p.fl.active == 0 && s.p.table.pending == 0
    requires InFlight(s) == inFlight && !s.p.timers.tickled
    requires Alike(Moved(s, i, s.p.fl.workers[i].(pc := IdleOut, idleDone := true)).(hasty := s.hasty || inFlight), s')
    ensures Steps(s, ByWorker(i, AskStop), s')
  {
    hide T.Inv, E.Inv, InFlight;
    assert Untickle(s) == s;
  }

  lemma OnAskedNo(s: State, i: nat, s': State)
    requires T.Inv(s.p.timers) && E.Inv(s.p.table) && CanAskStop(s, i) && (s.p.timers.armed != [] || !s.autostop)
    requires Alike(Moved(Untickle(s), i, s.p.fl.workers[i].(pc := IdleWait)), s')
    ensures Steps(s, ByWorker(i, AskStop), s')
  {
    hide T.Inv, E.Inv, InFlight;
  }

  lemma OnScheduleExpired(s: State, i: nat, s': State)
    requires T.Inv(s.p.timers) && E.Inv(s.p.table) && i < |s.p.fl.workers| && CanScheduleExpired(s, i)
    requires Alike(Moved(s.(p := s.p.(queue := s.p.queue + Unpinned(Calls(PcAt(s, i).cbs)))), i,
                        s.p.fl.workers[i].(pc := IdleDispatch(PcAt(s, i).evs))), s')
    ensures Steps(s, ByWorker(i, ScheduleExpired), s')
  {
    hide T.Inv, E.Inv, Stopping, InFlight;
  }

  lemma OnLeaveWait(s: State, i: nat, s': State)
    requires T.Inv(s.p.timers) && E.Inv(s.p.table) && i < |s.p.fl.workers| && CanLeaveWait(s, i)
    requires Alike(Moved(s, i, s.p.fl.workers[i].(pc := IdleOut)), s')
    ensures Steps(s, ByWorker(i, LeaveWait), s')
  {
    hide T.Inv, E.Inv, Stopping, InFlight;
  }

  lemma OnLeaveIdle(s: State, i: nat, s': State)
    requires T.Inv(s.p.timers) && E.Inv(s.p.table) && i < |s.p.fl.workers| && CanLeaveIdle(s, i)
    requires Alike(Moved(s, i, s.p.fl.workers[i].(pc := Head)), s')
    ensures Steps(s, ByWorker(i, LeaveIdle), s')
  {
    hide T.Inv, E.Inv, Stopping, InFlight;
  }

  lemma OnWait(s: State, i: nat, now: T.u64, probe: nat, evs: seq<(nat, E.Mask)>, s': State)
    requires T.Inv(s.p.timers) && E.Inv(s.p.table) && CanWait(s, i, now)
    requires !T.Rollover(s.p.timers.prev, now)
    requires var r := T.Expire(s.p.timers, now, probe);
             Alike(Moved(s.(p := s.p.(timers := r.0)), i, s.p.fl.workers[i].(pc := IdleGot(r.1, evs))), s')
    ensures Steps(s, ByWorker(i, Wait(now, probe, evs)), s')
  {
    hide T.Inv, E.Inv;
  }

  lemma OnBeginUser(s: State, i: nat, s': State)
    requires T.Inv(s.p.timers) && E.Inv(s.p.table) && CanBegin(s, i) && MyPc(s, i).cb.User?
    requires Alike(Go(s, i, Code), s')
    ensures Steps(s, ByFiber(i, BeginUser), s')
  {
    hide T.Inv, E.Inv;
  }

  lemma OnEndFiber(s: State, i: nat, threw: bool, s': State)
    requires T.Inv(s.p.timers) && E.Inv(s.p.table) && CanEnd(s, i)
    requires Alike(DoEnd(s, i, threw), s')
    ensures Steps(s, ByFiber(i, EndFiber(threw)), s')
  {
    hide T.Inv, E.Inv;
  }

  lemma OnIoStart(s: State, i: nat, fd: nat, ev: E.Event, to: Option<T.u64>, s': State)
    requires T.Inv(s.p.timers) && E.Inv(s.p.table) && InCode(s, i)
    requires Alike(DoIoStart(s, i, fd, ev, to), s')
    ensures Steps(s, ByFiber(i, IoStart(fd, ev, to)), s')
  {
    hide T.Inv, E.Inv;
  }

  lemma OnIoAgain(s: State, i: nat, a: nat, born: T.u64, s': State)
    requires T.Inv(s.p.timers) && E.Inv(s.p.table) && CanIoAgain(s, i, a, born)
    requires Alike(DoIoAgain(s, i, a, born), s')
    ensures Steps(s, ByFiber(i, IoAgain(a, born)), s')
  {
    hide T.Inv, E.Inv;
  }

  lemma OnSleepStart(s: State, i: nat, a: nat, born: T.u64, ms: T.u64, s': State)
    requires T.Inv(s.p.timers) && E.Inv(s.p.table) && CanSleep(s, i, a, born)
    requires Alike(DoSleepStart(s, i, a, born, ms), s')
    ensures Steps(s, ByFiber(i, SleepStart(a, born, ms)), s')
  {
    hide T.Inv, E.Inv;
  }

  lemma OnSleepPark(s: State, i: nat, s': State)
    requires T.Inv(s.p.timers) && E.Inv(s.p.table) && Running(s, i) && MyPc(s, i).SleepYield?
    requires Alike(DoPark(s, i, SleepParked), s')
    ensures Steps(s, ByFiber(i, SleepPark), s')
  {
    hide T.Inv, E.Inv;
  }

  lemma OnUser(s: State, who: Option<nat>, a: UserAct, s': State)
    requires T.Inv(s.p.timers) && E.Inv(s.p.table) && Actor(s, who) && CanUser(s, a)
    requires Alike(DoUser(s, a).(late := s.late || (who.None? && s.autostop)), s')
    ensures Steps(s, ByUser(who, a), s')
  {
    hide T.Inv, E.Inv, CanUser, DoUser;
  }

  lemma OnStop(s: State, s': State)
    requires T.Inv(s.p.timers) && E.Inv(s.p.table)
    requires Alike(s.(autostop := true), s')
    ensures Steps(s, Stop, s')
  {
    hide T.Inv, E.Inv;
  }

  // ---------------------------------------------------------------- the tables

  /** One worker and one submission: the stop check passes while the worker has the entry in hand. */
  function StopAct(n: nat): Action {
    match n
    case 0 => ByUser(None, Submit(0, -1))
    case 1 => ByWorker(0, Scan)
    case _ => Stop
  }

  function Stop0(t: E.Table): State { Scene(t, [], [], NoTimers(), [], [IDLER], 0, 0, false, false) }
  function Stop1(t: E.Table): State { Scene(t, [], [JOB], NoTimers(), [], [IDLER], 0, 0, false, false) }
  function Stop2(t: E.Table): State { Scene(t, [], [], NoTimers(), [], [Worker(Took(JOB), None, false)], 0, 0, false, false) }
  function Stop3(t: E.Table): State { Scene(t, [], [], NoTimers(), [], [Worker(Took(JOB), None, false)], 0, 0, true, false) }

  function StopStage(t: E.Table, n: nat): State {
    match n
    case 0 => Stop0(t)
    case 1 => Stop1(t)
    case 2 => Stop2(t)
    case _ => Stop3(t)
  }

  lemma StopSteps0(t: E.Table)
    requires E.Inv(t) && Empty(t)
    ensures Steps(Stop0(t), ByUser(None, Submit(0, -1)), Stop1(t))
    ensures Steps(Stop1(t), ByWorker(0, Scan), Stop2(t))
  {
    hide Steps, T.Inv, E.Inv, Armed0, Untickled, Fired, NoTimers, T.Add, T.Expire, T.Rollover, Unpinned, Calls, Stopping,
         QS.Scan;
    Sound(User(0));
    OnUser(Stop0(t), None, Submit(0, -1), Stop1(t));
    OnScanTake(Stop1(t), 0, Stop2(t));
  }

  lemma StopSteps2(t: E.Table)
    requires E.Inv(t) && Empty(t)
    ensures Steps(Stop2(t), Stop, Stop3(t))
  {
    hide Steps, T.Inv, E.Inv, Armed0, Untickled, Fired, NoTimers, T.Add, T.Expire, T.Rollover, Unpinned, Calls, Stopping,
         QS.Scan;
    Sound(User(0));
    OnStop(Stop2(t), Stop3(t));
  }

  lemma StopSteps(t: E.Table, n: nat)
    requires E.Inv(t) && Empty(t)
    requires n < 3
    ensures Steps(StopStage(t, n), StopAct(n), StopStage(t, n + 1))
  {
    hide Steps;
    match n
    case 0 => StopSteps0(t);
    case 1 => StopSteps0(t);
    case _ => StopSteps2(t);
  }

  /** One worker leaves after the stop; then a thread from outside submits. */
  function LateAct(n: nat): Action {
    match n
    case 0 => Stop
    case 1 => ByWorker(0, Scan)
    case 2 => ByWorker(0, AskStop)
    case 3 => ByWorker(0, LeaveIdle)
    case _ => ByWorker(0, Scan)
  }

  function Late0(t: E.Table): State { Scene(t, [], [], NoTimers(), [], [IDLER], 0, 0, false, false) }
  function Late1(t: E.Table): State { Scene(t, [], [], NoTimers(), [], [IDLER], 0, 0, true, false) }
  function Late2(t: E.Table): State { Scene(t, [], [], NoTimers(), [], [Worker(IdleCheck, None, false)], 0, 1, true, false) }
  function Late3(t: E.Table): State { Scene(t, [], [], NoTimers(), [], [Worker(IdleOut, None, true)], 0, 1, true, false) }
  function Late4(t: E.Table): State { Scene(t, [], [], NoTimers(), [], [Worker(Head, None, true)], 0, 0, true, false) }
  function Late5(t: E.Table): State { Scene(t, [], [], NoTimers(), [], [Worker(Exited, None, true)], 0, 0, true, false) }

  function LateStage(t: E.Table, n: nat): State {
    match n
    case 0 => Late0(t)
    case 1 => Late1(t)
    case 2 => Late2(t)
    case 3 => Late3(t)
    case 4 => Late4(t)
    case _ => Late5(t)
  }

  lemma LateSteps0(t: E.Table)
    requires E.Inv(t) && Empty(t)
    ensures Steps(Late0(t), Stop, Late1(t))
    ensures Steps(Late1(t), ByWorker(0, Scan), Late2(t))
  {
    hide Steps, T.Inv, E.Inv, Armed0, Untickled, Fired, NoTimers, T.Add, T.Expire, T.Rollover, Unpinned, Calls, Stopping,
         QS.Scan;
    Sound(User(0));
    OnStop(Late0(t), Late1(t));
    OnScanNone(Late1(t), 0, Late2(t));
  }

  lemma LateSteps2(t: E.Table)
    requires E.Inv(t) && Empty(t)
    ensures Steps(Late2(t), ByWorker(0, AskStop), Late3(t))
  {
    hide Steps, T.Inv, E.Inv, Armed0, Untickled, Fired, NoTimers, T.Add, T.Expire, T.Rollover, Unpinned, Calls, Stopping,
         QS.Scan;
    Sound(User(0));
    Asks(User(0));
    OnAskedYes(Late2(t), 0, false, Late3(t));
  }

  lemma LateSteps3(t: E.Table)
    requires E.Inv(t) && Empty(t)
    ensures Steps(Late3(t), ByWorker(0, LeaveIdle), Late4(t))
    ensures Steps(Late4(t), ByWorker(0, Scan), Late5(t))
  {
    hide Steps, T.Inv, E.Inv, Armed0, Untickled, Fired, NoTimers, T.Add, T.Expire, T.Rollover, Unpinned, Calls, Stopping,
         QS.Scan;
    Sound(User(0));
    OnLeaveIdle(Late3(t), 0, Late4(t));
    OnScanNone(Late4(t), 0, Late5(t));
  }

  lemma LateSteps(t: E.Table, n: nat)
    requires E.Inv(t) && Empty(t)
    requires n < 5
    ensures Steps(LateStage(t, n), LateAct(n), LateStage(t, n + 1))
  {
    hide Steps;
    match n
    case 0 => LateSteps0(t);
    case 1 => LateSteps0(t);
    case 2 => LateSteps2(t);
    case 3 => LateSteps3(t);
    case _ => LateSteps3(t);
  }

  /** Two workers and a timer that expires. Worker 0 is told to stop while worker 1 has the expired callback in
      hand, worker 1 while worker 0 has it; then worker 0 runs it, and it submits for a third thread. */
  function HastyAct(n: nat): Action {
    match n
    case 0 => ByUser(None, UserTimer(0, 0, 0, 0, false))
    case 1 => ByWorker(1, Scan)
    case 2 => ByWorker(1, AskStop)
    case 3 => ByWorker(1, Wait(0, 0, []))
    case 4 => Stop
    case 5 => ByWorker(0, Scan)
    case 6 => ByWorker(0, AskStop)
    case 7 => ByWorker(1, ScheduleExpired)
    case 8 => ByWorker(0, LeaveIdle)
    case 9 => ByWorker(0, Scan)
    case 10 => ByWorker(1, LeaveWait)
    case 11 => ByWorker(1, LeaveIdle)
    case 12 => ByWorker(1, Scan)
    case 13 => ByWorker(1, AskStop)
    case 14 => ByWorker(1, LeaveIdle)
    case 15 => ByWorker(1, Scan)
    case 16 => ByWorker(0, Load)
    case 17 => ByWorker(0, Count)
    case 18 => ByWorker(0, Enter)
    case 19 => ByFiber(0, BeginUser)
    case 20 => ByUser(Some(0), Submit(1, 7))
    case 21 => ByFiber(0, EndFiber(false))
    case 22 => ByWorker(0, Uncount)
    case 23 => ByWorker(0, SettleCb)
    case _ => ByWorker(0, Scan)
  }

  function Hasty0(t: E.Table): State { Scene(t, [], [], NoTimers(), [], [IDLER, IDLER], 0, 0, false, false) }
  function Hasty1(t: E.Table): State { Scene(t, [], [], Armed0(User(0)), [], [IDLER, IDLER], 0, 0, false, false) }
  function Hasty2(t: E.Table): State { Scene(t, [], [], Armed0(User(0)), [], [IDLER, Worker(IdleCheck, None, false)], 0, 1, false, false) }
  function Hasty3(t: E.Table): State { Scene(t, [], [], Untickled(User(0)), [], [IDLER, Worker(IdleWait, None, false)], 0, 1, false, false) }
  function Hasty4(t: E.Table): State { Scene(t, [], [], Fired(User(0)), [], [IDLER, Worker(IdleGot([User(0)], []), None, false)], 0, 1, false, false) }
  function Hasty5(t: E.Table): State { Scene(t, [], [], Fired(User(0)), [], [IDLER, Worker(IdleGot([User(0)], []), None, false)], 0, 1, true, false) }
  function Hasty6(t: E.Table): State { Scene(t, [], [], Fired(User(0)), [], [Worker(IdleCheck, None, false), Worker(IdleGot([User(0)], []), None, false)], 0, 2, true, false) }
  function Hasty7(t: E.Table): State { Scene(t, [], [], Fired(User(0)), [], [Worker(IdleOut, None, true), Worker(IdleGot([User(0)], []), None, false)], 0, 2, true, true) }
  function Hasty8(t: E.Table): State { Scene(t, [], [JOB], Fired(User(0)), [], [Worker(IdleOut, None, true), Worker(IdleDispatch([]), None, false)], 0, 2, true, true) }
  function Hasty9(t: E.Table): State { Scene(t, [], [JOB], Fired(User(0)), [], [Worker(Head, None, true), Worker(IdleDispatch([]), None, false)], 0, 1, true, true) }
  function Hasty10(t: E.Table): State { Scene(t, [], [], Fired(User(0)), [], [Worker(Took(JOB), None, true), Worker(IdleDispatch([]), None, false)], 0, 1, true, true) }
  function Hasty11(t: E.Table): State { Scene(t, [], [], Fired(User(0)), [], [Worker(Took(JOB), None, true), Worker(IdleOut, None, false)], 0, 1, true, true) }
  function Hasty12(t: E.Table): State { Scene(t, [], [], Fired(User(0)), [], [Worker(Took(JOB), None, true), IDLER], 0, 0, true, true) }
  function Hasty13(t: E.Table): State { Scene(t, [], [], Fired(User(0)), [], [Worker(Took(JOB), None, true), Worker(IdleCheck, None, false)], 0, 1, true, true) }
  function Hasty14(t: E.Table): State { Scene(t, [], [], Fired(User(0)), [], [Worker(Took(JOB), None, true), Worker(IdleOut, None, true)], 0, 1, true, true) }
  function Hasty15(t: E.Table): State { Scene(t, [], [], Fired(User(0)), [], [Worker(Took(JOB), None, true), Worker(Head, None, true)], 0, 0, true, true) }
  function Hasty16(t: E.Table): State { Scene(t, [], [], Fired(User(0)), [], [Worker(Took(JOB), None, true), Worker(Exited, None, true)], 0, 0, true, true) }
  function Hasty17(t: E.Table): State { Scene(t, [], [], Fired(User(0)), [Fiber(INIT, Loaded(User(0)))], [Worker(CbLoaded, Some(0), true), Worker(Exited, None, true)], 0, 0, true, true) }
  function Hasty18(t: E.Table): State { Scene(t, [], [], Fired(User(0)), [Fiber(INIT, Loaded(User(0)))], [Worker(Counted(0, true), Some(0), true), Worker(Exited, None, true)], 1, 0, true, true) }
  function Hasty19(t: E.Table): State { Scene(t, [], [], Fired(User(0)), [Fiber(EXEC, Begin(User(0)))], [Worker(Inside(0, true), Some(0), true), Worker(Exited, None, true)], 1, 0, true, true) }
  function Hasty20(t: E.Table): State { Scene(t, [], [], Fired(User(0)), [Fiber(EXEC, Code)], [Worker(Inside(0, true), Some(0), true), Worker(Exited, None, true)], 1, 0, true, true) }
  function Hasty21(t: E.Table): State { Scene(t, [], [Entry(CallbackOf(User(1)), 7)], Fired(User(0)), [Fiber(EXEC, Code)], [Worker(Inside(0, true), Some(0), true), Worker(Exited, None, true)], 1, 0, true, true) }
  function Hasty22(t: E.Table): State { Scene(t, [], [Entry(CallbackOf(User(1)), 7)], Fired(User(0)), [Fiber(TERM, Finished)], [Worker(Outside(0, true), Some(0), true), Worker(Exited, None, true)], 1, 0, true, true) }
  function Hasty23(t: E.Table): State { Scene(t, [], [Entry(CallbackOf(User(1)), 7)], Fired(User(0)), [Fiber(TERM, Finished)], [Worker(Settle(0), Some(0), true), Worker(Exited, None, true)], 0, 0, true, true) }
  function Hasty24(t: E.Table): State { Scene(t, [], [Entry(CallbackOf(User(1)), 7)], Fired(User(0)), [Fiber(INIT, Blank)], [Worker(Head, Some(0), true), Worker(Exited, None, true)], 0, 0, true, true) }
  function Hasty25(t: E.Table): State { Scene(t, [], [Entry(CallbackOf(User(1)), 7)], Fired(User(0)), [Fiber(INIT, Blank)], [Worker(Exited, Some(0), true), Worker(Exited, None, true)], 0, 0, true, true) }

  function HastyStage(t: E.Table, n: nat): State {
    match n
    case 0 => Hasty0(t)
    case 1 => Hasty1(t)
    case 2 => Hasty2(t)
    case 3 => Hasty3(t)
    case 4 => Hasty4(t)
    case 5 => Hasty5(t)
    case 6 => Hasty6(t)
    case 7 => Hasty7(t)
    case 8 => Hasty8(t)
    case 9 => Hasty9(t)
    case 10 => Hasty10(t)
    case 11 => Hasty11(t)
    case 12 => Hasty12(t)
    case 13 => Hasty13(t)
    case 14 => Hasty14(t)
    case 15 => Hasty15(t)
    case 16 => Hasty16(t)
    case 17 => Hasty17(t)
    case 18 => Hasty18(t)
    case 19 => Hasty19(t)
    case 20 => Hasty20(t)
    case 21 => Hasty21(t)
    case 22 => Hasty22(t)
    case 23 => Hasty23(t)
    case 24 => Hasty24(t)
    case _ => Hasty25(t)
  }

  lemma HastySteps0(t: E.Table)
    requires E.Inv(t) && Empty(t)
    ensures Steps(Hasty0(t), ByUser(None, UserTimer(0, 0, 0, 0, false)), Hasty1(t))
    ensures Steps(Hasty1(t), ByWorker(1, Scan), Hasty2(t))
  {
    hide Steps, T.Inv, E.Inv, Armed0, Untickled, Fired, NoTimers, T.Add, T.Expire, T.Rollover, Unpinned, Calls, Stopping,
         QS.Scan;
    Sound(User(0));
    Arms(User(0));
    OnUser(Hasty0(t), None, UserTimer(0, 0, 0, 0, false), Hasty1(t));
    OnScanNone(Hasty1(t), 1, Hasty2(t));
  }

  lemma HastySteps2(t: E.Table)
    requires E.Inv(t) && Empty(t)
    ensures Steps(Hasty2(t), ByWorker(1, AskStop), Hasty3(t))
  {
    hide Steps, T.Inv, E.Inv, Armed0, Untickled, Fired, NoTimers, T.Add, T.Expire, T.Rollover, Unpinned, Calls, Stopping,
         QS.Scan;
    Sound(User(0));
    Asks(User(0));
    OnAskedNo(Hasty2(t), 1, Hasty3(t));
  }

  lemma HastySteps3(t: E.Table)
    requires E.Inv(t) && Empty(t)
    ensures Steps(Hasty3(t), ByWorker(1, Wait(0, 0, [])), Hasty4(t))
  {
    hide Steps, T.Inv, E.Inv, Armed0, Untickled, Fired, NoTimers, T.Add, T.Expire, T.Rollover, Unpinned, Calls, Stopping,
         QS.Scan;
    Sound(User(0));
    Expires(User(0));
    OnWait(Hasty3(t), 1, 0, 0, [], Hasty4(t));
  }

  lemma HastySteps4(t: E.Table)
    requires E.Inv(t) && Empty(t)
    ensures Steps(Hasty4(t), Stop, Hasty5(t))
    ensures Steps(Hasty5(t), ByWorker(0, Scan), Hasty6(t))
  {
    hide Steps, T.Inv, E.Inv, Armed0, Untickled, Fired, NoTimers, T.Add, T.Expire, T.Rollover, Unpinned, Calls, Stopping,
         QS.Scan;
    Sound(User(0));
    OnStop(Hasty4(t), Hasty5(t));
    OnScanNone(Hasty5(t), 0, Hasty6(t));
  }

  lemma HastySteps6(t: E.Table)
    requires E.Inv(t) && Empty(t)
    ensures Steps(Hasty6(t), ByWorker(0, AskStop), Hasty7(t))
  {
    hide Steps, T.Inv, E.Inv, Armed0, Untickled, Fired, NoTimers, T.Add, T.Expire, T.Rollover, Unpinned, Calls, Stopping,
         QS.Scan;
    Sound(User(0));
    Asks(User(0));
    assert Carrying(Hasty6(t).p.fl.workers[1]);
    OnAskedYes(Hasty6(t), 0, true, Hasty7(t));
  }

  lemma HastySteps7(t: E.Table)
    requires E.Inv(t) && Empty(t)
    ensures Steps(Hasty7(t), ByWorker(1, ScheduleExpired), Hasty8(t))
  {
    hide Steps, T.Inv, E.Inv, Armed0, Untickled, Fired, NoTimers, T.Add, T.Expire, T.Rollover, Unpinned, Calls, Stopping,
         QS.Scan;
    Sound(User(0));
    Schedules(User(0));
    OnScheduleExpired(Hasty7(t), 1, Hasty8(t));
  }

  lemma HastySteps8(t: E.Table)
    requires E.Inv(t) && Empty(t)
    ensures Steps(Hasty8(t), ByWorker(0, LeaveIdle), Hasty9(t))
    ensures Steps(Hasty9(t), ByWorker(0, Scan), Hasty10(t))
  {
    hide Steps, T.Inv, E.Inv, Armed0, Untickled, Fired, NoTimers, T.Add, T.Expire, T.Rollover, Unpinned, Calls, Stopping,
         QS.Scan;
    Sound(User(0));
    OnLeaveIdle(Hasty8(t), 0, Hasty9(t));
    OnScanTake(Hasty9(t), 0, Hasty10(t));
  }

  lemma HastySteps10(t: E.Table)
    requires E.Inv(t) && Empty(t)
    ensures Steps(Hasty10(t), ByWorker(1, LeaveWait), Hasty11(t))
    ensures Steps(Hasty11(t), ByWorker(1, LeaveIdle), Hasty12(t))
  {
    hide Steps, T.Inv, E.Inv, Armed0, Untickled, Fired, NoTimers, T.Add, T.Expire, T.Rollover, Unpinned, Calls, Stopping,
         QS.Scan;
    Sound(User(0));
    OnLeaveWait(Hasty10(t), 1, Hasty11(t));
    OnLeaveIdle(Hasty11(t), 1, Hasty12(t));
  }

  lemma HastySteps12(t: E.Table)
    requires E.Inv(t) && Empty(t)
    ensures Steps(Hasty12(t), ByWorker(1, Scan), Hasty13(t))
  {
    hide Steps, T.Inv, E.Inv, Armed0, Untickled, Fired, NoTimers, T.Add, T.Expire, T.Rollover, Unpinned, Calls, Stopping,
         QS.Scan;
    Sound(User(0));
    OnScanNone(Hasty12(t), 1, Hasty13(t));
  }

  lemma HastySteps13(t: E.Table)
    requires E.Inv(t) && Empty(t)
    ensures Steps(Hasty13(t), ByWorker(1, AskStop), Hasty14(t))
  {
    hide Steps, T.Inv, E.Inv, Armed0, Untickled, Fired, NoTimers, T.Add, T.Expire, T.Rollover, Unpinned, Calls, Stopping,
         QS.Scan;
    Sound(User(0));
    Asks(User(0));
    assert Carrying(Hasty13(t).p.fl.workers[0]);
    OnAskedYes(Hasty13(t), 1, true, Hasty14(t));
  }

  lemma HastySteps14(t: E.Table)
    requires E.Inv(t) && Empty(t)
    ensures Steps(Hasty14(t), ByWorker(1, LeaveIdle), Hasty15(t))
    ensures Steps(Hasty15(t), ByWorker(1, Scan), Hasty16(t))
  {
    hide Steps, T.Inv, E.Inv, Armed0, Untickled, Fired, NoTimers, T.Add, T.Expire, T.Rollover, Unpinned, Calls, Stopping,
         QS.Scan;
    Sound(User(0));
    OnLeaveIdle(Hasty14(t), 1, Hasty15(t));
    OnScanNone(Hasty15(t), 1, Hasty16(t));
  }

  lemma HastySteps16(t: E.Table)
    requires E.Inv(t) && Empty(t)
    ensures Steps(Hasty16(t), ByWorker(0, Load), Hasty17(t))
    ensures Steps(Hasty17(t), ByWorker(0, Count), Hasty18(t))
  {
    hide Steps, T.Inv, E.Inv, Armed0, Untickled, Fired, NoTimers, T.Add, T.Expire, T.Rollover, Unpinned, Calls, Stopping,
         QS.Scan;
    Sound(User(0));
    OnLoad(Hasty16(t), 0, Hasty17(t));
    OnCount(Hasty17(t), 0, Hasty18(t));
  }

  lemma HastySteps18(t: E.Table)
    requires E.Inv(t) && Empty(t)
    ensures Steps(Hasty18(t), ByWorker(0, Enter), Hasty19(t))
    ensures Steps(Hasty19(t), ByFiber(0, BeginUser), Hasty20(t))
  {
    hide Steps, T.Inv, E.Inv, Armed0, Untickled, Fired, NoTimers, T.Add, T.Expire, T.Rollover, Unpinned, Calls, Stopping,
         QS.Scan;
    Sound(User(0));
    OnEnter(Hasty18(t), 0, Hasty19(t));
    OnBeginUser(Hasty19(t), 0, Hasty20(t));
  }

  lemma HastySteps20(t: E.Table)
    requires E.Inv(t) && Empty(t)
    ensures Steps(Hasty20(t), ByUser(Some(0), Submit(1, 7)), Hasty21(t))
    ensures Steps(Hasty21(t), ByFiber(0, EndFiber(false)), Hasty22(t))
  {
    hide Steps, T.Inv, E.Inv, Armed0, Untickled, Fired, NoTimers, T.Add, T.Expire, T.Rollover, Unpinned, Calls, Stopping,
         QS.Scan;
    Sound(User(0));
    OnUser(Hasty20(t), Some(0), Submit(1, 7), Hasty21(t));
    OnEndFiber(Hasty21(t), 0, false, Hasty22(t));
  }

  lemma HastySteps22(t: E.Table)
    requires E.Inv(t) && Empty(t)
    ensures Steps(Hasty22(t), ByWorker(0, Uncount), Hasty23(t))
    ensures Steps(Hasty23(t), ByWorker(0, SettleCb), Hasty24(t))
  {
    hide Steps, T.Inv, E.Inv, Armed0, Untickled, Fired, NoTimers, T.Add, T.Expire, T.Rollover, Unpinned, Calls, Stopping,
         QS.Scan;
    Sound(User(0));
    OnUncount(Hasty22(t), 0, Hasty23(t));
    OnSettleCb(Hasty23(t), 0, Hasty24(t));
  }

  lemma HastySteps24(t: E.Table)
    requires E.Inv(t) && Empty(t)
    ensures Steps(Hasty24(t), ByWorker(0, Scan), Hasty25(t))
  {
    hide Steps, T.Inv, E.Inv, Armed0, Untickled, Fired, NoTimers, T.Add, T.Expire, T.Rollover, Unpinned, Calls, Stopping,
         QS.Scan;
    Sound(User(0));
    OnScanNone(Hasty24(t), 0, Hasty25(t));
  }

  lemma HastyFirstSteps(t: E.Table, n: nat)
    requires E.Inv(t) && Empty(t)
    requires n < 12
    ensures Steps(HastyStage(t, n), HastyAct(n), HastyStage(t, n + 1))
  {
    hide Steps;
    match n
    case 0 => HastySteps0(t);
    case 1 => HastySteps0(t);
    case 2 => HastySteps2(t);
    case 3 => HastySteps3(t);
    case 4 => HastySteps4(t);
    case 5 => HastySteps4(t);
    case 6 => HastySteps6(t);
    case 7 => HastySteps7(t);
    case 8 => HastySteps8(t);
    case 9 => HastySteps8(t);
    case 10 => HastySteps10(t);
    case _ => HastySteps10(t);
  }

  lemma HastyLastSteps(t: E.Table, n: nat)
    requires E.Inv(t) && Empty(t)
    requires 12 <= n < 25
    ensures Steps(HastyStage(t, n), HastyAct(n), HastyStage(t, n + 1))
  {
    hide Steps;
    match n
    case 12 => HastySteps12(t);
    case 13 => HastySteps13(t);
    case 14 => HastySteps14(t);
    case 15 => HastySteps14(t);
    case 16 => HastySteps16(t);
    case 17 => HastySteps16(t);
    case 18 => HastySteps18(t);
    case 19 => HastySteps18(t);
    case 20 => HastySteps20(t);
    case 21 => HastySteps20(t);
    case 22 => HastySteps22(t);
    case 23 => HastySteps22(t);
    case _ => HastySteps24(t);
  }

  lemma HastySteps(t: E.Table, n: nat)
    requires E.Inv(t) && Empty(t)
    requires n < 25
    ensures Steps(HastyStage(t, n), HastyAct(n), HastyStage(t, n + 1))
  {
    hide Steps, HastyStage, HastyAct;
    if n < 12 { HastyFirstSteps(t, n); } else { HastyLastSteps(t, n); }
  }

  /** One worker; a fiber that was handed to `schedule` sleeps. */
  function StuckAct(n: nat): Action {
    match n
    case 0 => ByUser(None, Spawn(0, -1))
    case 1 => ByWorker(0, Scan)
    case 2 => ByWorker(0, Count)
    case 3 => ByWorker(0, Enter)
    case 4 => ByFiber(0, BeginUser)
    case _ => ByFiber(0, SleepStart(0, 0, 0))
  }

  function Stuck0(t: E.Table): State { Scene(t, [], [], NoTimers(), [], [IDLER], 0, 0, false, false) }
  function Stuck1(t: E.Table): State { Scene(t, [], [Entry(FiberOf(0), -1)], NoTimers(), [Fiber(INIT, Fresh(User(0)))], [IDLER], 0, 0, false, false) }
  function Stuck2(t: E.Table): State { Scene(t, [], [], NoTimers(), [Fiber(INIT, Fresh(User(0)))], [Worker(Took(Entry(FiberOf(0), -1)), None, false)], 0, 0, false, false) }
  function Stuck3(t: E.Table): State { Scene(t, [], [], NoTimers(), [Fiber(INIT, Fresh(User(0)))], [Worker(Counted(0, false), None, false)], 1, 0, false, false) }
  function Stuck4(t: E.Table): State { Scene(t, [], [], NoTimers(), [Fiber(EXEC, Begin(User(0)))], [Worker(Inside(0, false), None, false)], 1, 0, false, false) }
  function Stuck5(t: E.Table): State { Scene(t, [], [], NoTimers(), [Fiber(EXEC, Code)], [Worker(Inside(0, false), None, false)], 1, 0, false, false) }
  function Stuck6(t: E.Table): State { Scene(t, [], [], Armed0(Wake(0)), [Fiber(EXEC, SleepYield)], [Worker(Inside(0, false), None, false)], 1, 0, false, false) }

  function StuckStage(t: E.Table, n: nat): State {
    match n
    case 0 => Stuck0(t)
    case 1 => Stuck1(t)
    case 2 => Stuck2(t)
    case 3 => Stuck3(t)
    case 4 => Stuck4(t)
    case 5 => Stuck5(t)
    case _ => Stuck6(t)
  }

  lemma StuckSteps0(t: E.Table)
    requires E.Inv(t) && Empty(t)
    ensures Steps(Stuck0(t), ByUser(None, Spawn(0, -1)), Stuck1(t))
    ensures Steps(Stuck1(t), ByWorker(0, Scan), Stuck2(t))
  {
    hide Steps, T.Inv, E.Inv, Armed0, Untickled, Fired, NoTimers, T.Add, T.Expire, T.Rollover, Unpinned, Calls, Stopping,
         QS.Scan;
    Sound(Wake(0));
    OnUser(Stuck0(t), None, Spawn(0, -1), Stuck1(t));
    OnScanTake(Stuck1(t), 0, Stuck2(t));
  }

  lemma StuckSteps2(t: E.Table)
    requires E.Inv(t) && Empty(t)
    ensures Steps(Stuck2(t), ByWorker(0, Count), Stuck3(t))
    ensures Steps(Stuck3(t), ByWorker(0, Enter), Stuck4(t))
  {
    hide Steps, T.Inv, E.Inv, Armed0, Untickled, Fired, NoTimers, T.Add, T.Expire, T.Rollover, Unpinned, Calls, Stopping,
         QS.Scan;
    Sound(Wake(0));
    OnCount(Stuck2(t), 0, Stuck3(t));
    OnEnter(Stuck3(t), 0, Stuck4(t));
  }

  lemma StuckSteps4(t: E.Table)
    requires E.Inv(t) && Empty(t)
    ensures Steps(Stuck4(t), ByFiber(0, BeginUser), Stuck5(t))
    ensures Steps(Stuck5(t), ByFiber(0, SleepStart(0, 0, 0)), Stuck6(t))
  {
    hide Steps, T.Inv, E.Inv, Armed0, Untickled, Fired, NoTimers, T.Add, T.Expire, T.Rollover, Unpinned, Calls, Stopping,
         QS.Scan;
    Sound(Wake(0));
    Arms(Wake(0));
    OnBeginUser(Stuck4(t), 0, Stuck5(t));
    OnSleepStart(Stuck5(t), 0, 0, 0, 0, Stuck6(t));
  }

  lemma StuckSteps(t: E.Table, n: nat)
    requires E.Inv(t) && Empty(t)
    requires n < 6
    ensures Steps(StuckStage(t, n), StuckAct(n), StuckStage(t, n + 1))
  {
    hide Steps;
    match n
    case 0 => StuckSteps0(t);
    case 1 => StuckSteps0(t);
    case 2 => StuckSteps2(t);
    case 3 => StuckSteps2(t);
    case 4 => StuckSteps4(t);
    case _ => StuckSteps4(t);
  }

  /** Two workers. The fiber on worker 0 has armed its timer and not yet registered; worker 1 has expired the
      timer and is about to call its closure. */
  function StrandedAct(n: nat): Action {
    match n
    case 0 => ByUser(None, Submit(0, -1))
    case 1 => ByWorker(0, Scan)
    case 2 => ByWorker(0, Load)
    case 3 => ByWorker(0, Count)
    case 4 => ByWorker(0, Enter)
    case 5 => ByFiber(0, BeginUser)
    case 6 => ByFiber(0, IoStart(0, E.READ, Some(0)))
    case 7 => ByFiber(0, IoAgain(0, 0))
    case 8 => ByWorker(1, Scan)
    case 9 => ByWorker(1, AskStop)
    case 10 => ByWorker(1, Wait(0, 0, []))
    case 11 => ByWorker(1, ScheduleExpired)
    case 12 => ByWorker(1, LeaveWait)
    case 13 => ByWorker(1, LeaveIdle)
    case 14 => ByWorker(1, Scan)
    case 15 => ByWorker(1, Load)
    case 16 => ByWorker(1, Count)
    case _ => ByWorker(1, Enter)
  }

  function Stranded0(t: E.Table): State { Scene(t, [], [], NoTimers(), [], [IDLER, IDLER], 0, 0, false, false) }
  function Stranded1(t: E.Table): State { Scene(t, [], [JOB], NoTimers(), [], [IDLER, IDLER], 0, 0, false, false) }
  function Stranded2(t: E.Table): State { Scene(t, [], [], NoTimers(), [], [Worker(Took(JOB), None, false), IDLER], 0, 0, false, false) }
  function Stranded3(t: E.Table): State { Scene(t, [], [], NoTimers(), [Fiber(INIT, Loaded(User(0)))], [Worker(CbLoaded, Some(0), false), IDLER], 0, 0, false, false) }
  function Stranded4(t: E.Table): State { Scene(t, [], [], NoTimers(), [Fiber(INIT, Loaded(User(0)))], [Worker(Counted(0, true), Some(0), false), IDLER], 1, 0, false, false) }
  function Stranded5(t: E.Table): State { Scene(t, [], [], NoTimers(), [Fiber(EXEC, Begin(User(0)))], [Worker(Inside(0, true), Some(0), false), IDLER], 1, 0, false, false) }
  function Stranded6(t: E.Table): State { Scene(t, [], [], NoTimers(), [Fiber(EXEC, Code)], [Worker(Inside(0, true), Some(0), false), IDLER], 1, 0, false, false) }
  function Stranded7(t: E.Table): State { Scene(t, [Call(0, 0, E.READ, Some(0), None, [], None, None)], [], NoTimers(), [Fiber(EXEC, IoTry(0))], [Worker(Inside(0, true), Some(0), false), IDLER], 1, 0, false, false) }
  function Stranded8(t: E.Table): State { Scene(t, [Call(0, 0, E.READ, Some(0), Some(0), [0], None, None)], [], Armed0(Timeout(0, 0)), [Fiber(EXEC, IoReady(0))], [Worker(Inside(0, true), Some(0), false), IDLER], 1, 0, false, false) }
  function Stranded9(t: E.Table): State { Scene(t, [Call(0, 0, E.READ, Some(0), Some(0), [0], None, None)], [], Armed0(Timeout(0, 0)), [Fiber(EXEC, IoReady(0))], [Worker(Inside(0, true), Some(0), false), Worker(IdleCheck, None, false)], 1, 1, false, false) }
  function Stranded10(t: E.Table): State { Scene(t, [Call(0, 0, E.READ, Some(0), Some(0), [0], None, None)], [], Untickled(Timeout(0, 0)), [Fiber(EXEC, IoReady(0))], [Worker(Inside(0, true), Some(0), false), Worker(IdleWait, None, false)], 1, 1, false, false) }
  function Stranded11(t: E.Table): State { Scene(t, [Call(0, 0, E.READ, Some(0), Some(0), [0], None, None)], [], Fired(Timeout(0, 0)), [Fiber(EXEC, IoReady(0))], [Worker(Inside(0, true), Some(0), false), Worker(IdleGot([Timeout(0, 0)], []), None, false)], 1, 1, false, false) }
  function Stranded12(t: E.Table): State { Scene(t, [Call(0, 0, E.READ, Some(0), Some(0), [0], None, None)], [Entry(CallbackOf(Timeout(0, 0)), -1)], Fired(Timeout(0, 0)), [Fiber(EXEC, IoReady(0))], [Worker(Inside(0, true), Some(0), false), Worker(IdleDispatch([]), None, false)], 1, 1, false, false) }
  function Stranded13(t: E.Table): State { Scene(t, [Call(0, 0, E.READ, Some(0), Some(0), [0], None, None)], [Entry(CallbackOf(Timeout(0, 0)), -1)], Fired(Timeout(0, 0)), [Fiber(EXEC, IoReady(0))], [Worker(Inside(0, true), Some(0), false), Worker(IdleOut, None, false)], 1, 1, false, false) }
  function Stranded14(t: E.Table): State { Scene(t, [Call(0, 0, E.READ, Some(0), Some(0), [0], None, None)], [Entry(CallbackOf(Timeout(0, 0)), -1)], Fired(Timeout(0, 0)), [Fiber(EXEC, IoReady(0))], [Worker(Inside(0, true), Some(0), false), IDLER], 1, 0, false, false) }
  function Stranded15(t: E.Table): State { Scene(t, [Call(0, 0, E.READ, Some(0), Some(0), [0], None, None)], [], Fired(Timeout(0, 0)), [Fiber(EXEC, IoReady(0))], [Worker(Inside(0, true), Some(0), false), Worker(Took(Entry(CallbackOf(Timeout(0, 0)), -1)), None, false)], 1, 0, false, false) }
  function Stranded16(t: E.Table): State { Scene(t, [Call(0, 0, E.READ, Some(0), Some(0), [0], None, None)], [], Fired(Timeout(0, 0)), [Fiber(EXEC, IoReady(0)), Fiber(INIT, Loaded(Timeout(0, 0)))], [Worker(Inside(0, true), Some(0), false), Worker(CbLoaded, Some(1), false)], 1, 0, false, false) }
  function Stranded17(t: E.Table): State { Scene(t, [Call(0, 0, E.READ, Some(0), Some(0), [0], None, None)], [], Fired(Timeout(0, 0)), [Fiber(EXEC, IoReady(0)), Fiber(INIT, Loaded(Timeout(0, 0)))], [Worker(Inside(0, true), Some(0), false), Worker(Counted(1, true), Some(1), false)], 2, 0, false, false) }
  function Stranded18(t: E.Table): State { Scene(t, [Call(0, 0, E.READ, Some(0), Some(0), [0], None, None)], [], Fired(Timeout(0, 0)), [Fiber(EXEC, IoReady(0)), Fiber(EXEC, Begin(Timeout(0, 0)))], [Worker(Inside(0, true), Some(0), false), Worker(Inside(1, true), Some(1), false)], 2, 0, false, false) }

  function StrandedStage(t: E.Table, n: nat): State {
    match n
    case 0 => Stranded0(t)
    case 1 => Stranded1(t)
    case 2 => Stranded2(t)
    case 3 => Stranded3(t)
    case 4 => Stranded4(t)
    case 5 => Stranded5(t)
    case 6 => Stranded6(t)
    case 7 => Stranded7(t)
    case 8 => Stranded8(t)
    case 9 => Stranded9(t)
    case 10 => Stranded10(t)
    case 11 => Stranded11(t)
    case 12 => Stranded12(t)
    case 13 => Stranded13(t)
    case 14 => Stranded14(t)
    case 15 => Stranded15(t)
    case 16 => Stranded16(t)
    case 17 => Stranded17(t)
    case _ => Stranded18(t)
  }

  lemma StrandedSteps0(t: E.Table)
    requires E.Inv(t) && Empty(t)
    ensures Steps(Stranded0(t), ByUser(None, Submit(0, -1)), Stranded1(t))
    ensures Steps(Stranded1(t), ByWorker(0, Scan), Stranded2(t))
  {
    hide Steps, T.Inv, E.Inv, Armed0, Untickled, Fired, NoTimers, T.Add, T.Expire, T.Rollover, Unpinned, Calls, Stopping,
         QS.Scan;
    Sound(Timeout(0, 0));
    OnUser(Stranded0(t), None, Submit(0, -1), Stranded1(t));
    OnScanTake(Stranded1(t), 0, Stranded2(t));
  }

  lemma StrandedSteps2(t: E.Table)
    requires E.Inv(t) && Empty(t)
    ensures Steps(Stranded2(t), ByWorker(0, Load), Stranded3(t))
    ensures Steps(Stranded3(t), ByWorker(0, Count), Stranded4(t))
  {
    hide Steps, T.Inv, E.Inv, Armed0, Untickled, Fired, NoTimers, T.Add, T.Expire, T.Rollover, Unpinned, Calls, Stopping,
         QS.Scan;
    Sound(Timeout(0, 0));
    OnLoad(Stranded2(t), 0, Stranded3(t));
    OnCount(Stranded3(t), 0, Stranded4(t));
  }

  lemma StrandedSteps4(t: E.Table)
    requires E.Inv(t) && Empty(t)
    ensures Steps(Stranded4(t), ByWorker(0, Enter), Stranded5(t))
    ensures Steps(Stranded5(t), ByFiber(0, BeginUser), Stranded6(t))
  {
    hide Steps, T.Inv, E.Inv, Armed0, Untickled, Fired, NoTimers, T.Add, T.Expire, T.Rollover, Unpinned, Calls, Stopping,
         QS.Scan;
    Sound(Timeout(0, 0));
    OnEnter(Stranded4(t), 0, Stranded5(t));
    OnBeginUser(Stranded5(t), 0, Stranded6(t));
  }

  lemma StrandedSteps6(t: E.Table)
    requires E.Inv(t) && Empty(t)
    ensures Steps(Stranded6(t), ByFiber(0, IoStart(0, E.READ, Some(0))), Stranded7(t))
    ensures Steps(Stranded7(t), ByFiber(0, IoAgain(0, 0)), Stranded8(t))
  {
    hide Steps, T.Inv, E.Inv, Armed0, Untickled, Fired, NoTimers, T.Add, T.Expire, T.Rollover, Unpinned, Calls, Stopping,
         QS.Scan;
    Sound(Timeout(0, 0));
    Arms(Timeout(0, 0));
    OnIoStart(Stranded6(t), 0, 0, E.READ, Some(0), Stranded7(t));
    assert Stranded7(t).calls[0].arms + [0] == [0];
    OnIoAgain(Stranded7(t), 0, 0, 0, Stranded8(t));
  }

  lemma StrandedSteps8(t: E.Table)
    requires E.Inv(t) && Empty(t)
    ensures Steps(Stranded8(t), ByWorker(1, Scan), Stranded9(t))
  {
    hide Steps, T.Inv, E.Inv, Armed0, Untickled, Fired, NoTimers, T.Add, T.Expire, T.Rollover, Unpinned, Calls, Stopping,
         QS.Scan;
    Sound(Timeout(0, 0));
    OnScanNone(Stranded8(t), 1, Stranded9(t));
  }

  lemma StrandedSteps9(t: E.Table)
    requires E.Inv(t) && Empty(t)
    ensures Steps(Stranded9(t), ByWorker(1, AskStop), Stranded10(t))
  {
    hide Steps, T.Inv, E.Inv, Armed0, Untickled, Fired, NoTimers, T.Add, T.Expire, T.Rollover, Unpinned, Calls, Stopping,
         QS.Scan;
    Sound(Timeout(0, 0));
    Asks(Timeout(0, 0));
    OnAskedNo(Stranded9(t), 1, Stranded10(t));
  }

  lemma StrandedSteps10(t: E.Table)
    requires E.Inv(t) && Empty(t)
    ensures Steps(Stranded10(t), ByWorker(1, Wait(0, 0, [])), Stranded11(t))
  {
    hide Steps, T.Inv, E.Inv, Armed0, Untickled, Fired, NoTimers, T.Add, T.Expire, T.Rollover, Unpinned, Calls, Stopping,
         QS.Scan;
    Sound(Timeout(0, 0));
    Expires(Timeout(0, 0));
    OnWait(Stranded10(t), 1, 0, 0, [], Stranded11(t));
  }

  lemma StrandedSteps11(t: E.Table)
    requires E.Inv(t) && Empty(t)
    ensures Steps(Stranded11(t), ByWorker(1, ScheduleExpired), Stranded12(t))
  {
    hide Steps, T.Inv, E.Inv, Armed0, Untickled, Fired, NoTimers, T.Add, T.Expire, T.Rollover, Unpinned, Calls, Stopping,
         QS.Scan;
    Sound(Timeout(0, 0));
    Schedules(Timeout(0, 0));
    OnScheduleExpired(Stranded11(t), 1, Stranded12(t));
  }

  lemma StrandedSteps12(t: E.Table)
    requires E.Inv(t) && Empty(t)
    ensures Steps(Stranded12(t), ByWorker(1, LeaveWait), Stranded13(t))
    ensures Steps(Stranded13(t), ByWorker(1, LeaveIdle), Stranded14(t))
  {
    hide Steps, T.Inv, E.Inv, Armed0, Untickled, Fired, NoTimers, T.Add, T.Expire, T.Rollover, Unpinned, Calls, Stopping,
         QS.Scan;
    Sound(Timeout(0, 0));
    OnLeaveWait(Stranded12(t), 1, Stranded13(t));
    OnLeaveIdle(Stranded13(t), 1, Stranded14(t));
  }

  lemma StrandedSteps14(t: E.Table)
    requires E.Inv(t) && Empty(t)
    ensures Steps(Stranded14(t), ByWorker(1, Scan), Stranded15(t))
    ensures Steps(Stranded15(t), ByWorker(1, Load), Stranded16(t))
  {
    hide Steps, T.Inv, E.Inv, Armed0, Untickled, Fired, NoTimers, T.Add, T.Expire, T.Rollover, Unpinned, Calls, Stopping,
         QS.Scan;
    Sound(Timeout(0, 0));
    OnScanTake(Stranded14(t), 1, Stranded15(t));
    OnLoad(Stranded15(t), 1, Stranded16(t));
  }

  lemma StrandedSteps16(t: E.Table)
    requires E.Inv(t) && Empty(t)
    ensures Steps(Stranded16(t), ByWorker(1, Count), Stranded17(t))
    ensures Steps(Stranded17(t), ByWorker(1, Enter), Stranded18(t))
  {
    hide Steps, T.Inv, E.Inv, Armed0, Untickled, Fired, NoTimers, T.Add, T.Expire, T.Rollover, Unpinned, Calls, Stopping,
         QS.Scan;
    Sound(Timeout(0, 0));
    OnCount(Stranded16(t), 1, Stranded17(t));
    OnEnter(Stranded17(t), 1, Stranded18(t));
  }

  lemma StrandedFirstSteps(t: E.Table, n: nat)
    requires E.Inv(t) && Empty(t)
    requires n < 9
    ensures Steps(StrandedStage(t, n), StrandedAct(n), StrandedStage(t, n + 1))
  {
    hide Steps;
    match n
    case 0 => StrandedSteps0(t);
    case 1 => StrandedSteps0(t);
    case 2 => StrandedSteps2(t);
    case 3 => StrandedSteps2(t);
    case 4 => StrandedSteps4(t);
    case 5 => StrandedSteps4(t);
    case 6 => StrandedSteps6(t);
    case 7 => StrandedSteps6(t);
    case _ => StrandedSteps8(t);
  }

  lemma StrandedLastSteps(t: E.Table, n: nat)
    requires E.Inv(t) && Empty(t)
    requires 9 <= n < 18
    ensures Steps(StrandedStage(t, n), StrandedAct(n), StrandedStage(t, n + 1))
  {
    hide Steps;
    match n
    case 9 => StrandedSteps9(t);
    case 10 => StrandedSteps10(t);
    case 11 => StrandedSteps11(t);
    case 12 => StrandedSteps12(t);
    case 13 => StrandedSteps12(t);
    case 14 => StrandedSteps14(t);
    case 15 => StrandedSteps14(t);
    case 16 => StrandedSteps16(t);
    case _ => StrandedSteps16(t);
  }

  lemma StrandedSteps(t: E.Table, n: nat)
    requires E.Inv(t) && Empty(t)
    requires n < 18
    ensures Steps(StrandedStage(t, n), StrandedAct(n), StrandedStage(t, n + 1))
  {
    hide Steps, StrandedStage, StrandedAct;
    if n < 9 { StrandedFirstSteps(t, n); } else { StrandedLastSteps(t, n); }
  }
}
