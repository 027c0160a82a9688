/** Runs of the runtime: user code and the environment, the invariant over every run, and the theorems
    about wake-ups, blocking calls, stopping and fibers that block twice. */
module RuntimeRuns {
  import opened Common
  import opened Sums
  import opened Fleet
  import opened Tokens
  import opened TimerWeights
  import opened Runtime
  import opened RuntimeSteps
  import opened RuntimeFibers
  import T = TimerSpec
  import E = EventSpec
  import EventSteps
  import EventRuns

  // ---------------------------------------------------------------- user code

  lemma QueuedKeeps(s: State, n: nat, thread: int)
    requires SysInv(s)
    ensures SysInv(DoSubmit(s, n, thread))
  {
    var e := Entry(CallbackOf(User(n)), thread);
    var s' := DoSubmit(s, n, thread);
    assert TokenInv(s'.p) by {
      forall f: FiberId ensures Held(s'.p, f) == Owed(s'.p.fl.fibers, f) {
        assert Held(s.p, f) == Owed(s.p.fl.fibers, f);
        SumAppend(s.p.queue, e, InEntry(f));
      }
    }
    hide E.Inv, T.Inv, SlotsClean, FleetInv, Links, TimerLinks, CallsOk;
  }

  lemma SpawnTokens(p: Places, x: Fiber, thread: int, p': Places)
    requires TokenInv(p) && x.pc.Fresh? && x.pc.cb.User?
    requires p'.fl.fibers == p.fl.fibers + [x] && p'.fl.workers == p.fl.workers
    requires p'.queue == p.queue + [Entry(FiberOf(|p.fl.fibers|), thread)]
    requires p'.table == p.table && p'.timers == p.timers
    ensures TokenInv(p')
  {
    forall f: FiberId ensures Held(p', f) == Owed(p'.fl.fibers, f) {
      assert Held(p, f) == Owed(p.fl.fibers, f);
      SumAppend(p.queue, Entry(FiberOf(|p.fl.fibers|), thread), InEntry(f));
      SumAppend(p.fl.fibers, x, InFiber(f));
    }
  }

  lemma SpawnKeepsSys(s: State, n: nat, thread: int)
    requires SysInv(s)
    ensures SysInv(DoSpawn(s, n, thread))
  {
    hide E.Inv, T.Inv, SlotsClean, FleetInv, Links, TimerLinks, CallsOk, TokenInv;
    var x := Fiber(INIT, Fresh(User(n)));
    var s' := DoSpawn(s, n, thread);
    SpawnKeepsFleet(s.p.fl, x, s'.p.fl);
    AppendFiber(s.calls, s.p.fl.fibers, s.p.timers.recs, x);
    SpawnTokens(s.p, x, thread, s'.p);
  }

  lemma UserTimerKeeps(s: State, a: nat, born: T.u64, ms: T.u64, n: nat, recurring: bool)
    requires SysInv(s) && a !in s.p.timers.recs
    ensures SysInv(WithTimers(s, T.Add(s.p.timers, a, born, ms, User(n), recurring).0))
  {
    hide T.Add;
    var q := T.Add(s.p.timers, a, born, ms, User(n), recurring).0;
    T.AddIntegrity(s.p.timers, a, born, ms, User(n), recurring);
    ForeignTimer(s.calls, s.p.fl.fibers, s.p.timers.recs, a, q.recs[a]);
    forall f: FiberId ensures Armed(q, Wakes(f)) == Armed(s.p.timers, Wakes(f)) {
      AddWeight(s.p.timers, a, born, ms, User(n), recurring, Wakes(f));
    }
    TimersKeep(s, q);
  }

  /** Rewriting a timer of the program's own leaves the links intact. */
  lemma RewriteUsersTimer(calls: seq<Call>, fibers: seq<Fiber>, recs: T.Records, a: nat, r: T.TimerRec)
    requires TimerLinks(calls, fibers, recs) && a in recs
    requires r.cb == recs[a].cb && r.recurring == recs[a].recurring
    requires r.cb.Some? ==> r.cb.value.User?
    ensures TimerLinks(calls, fibers, recs[a := r])
  {
    var recs' := recs[a := r];
    forall c | 0 <= c < |calls| ensures OwnTimer(recs', c, calls[c]) {
      assert OwnTimer(recs, c, calls[c]);
    }
    forall b | b in recs' ensures TimeoutTimer(calls, fibers, b, recs'[b]) {
      assert b != a ==> TimeoutTimer(calls, fibers, b, recs[b]);
    }
  }

  lemma UserRefreshKeeps(s: State, a: nat)
    requires SysInv(s) && UsersTimer(s, a)
    ensures SysInv(WithTimers(s, T.Refresh(s.p.timers, a, s.clock).0))
  {
    hide T.Refresh;
    var q := T.Refresh(s.p.timers, a, s.clock).0;
    var recs := s.p.timers.recs;
    T.RefreshIntegrity(s.p.timers, a, s.clock);
    RewriteUsersTimer(s.calls, s.p.fl.fibers, recs, a, recs[a].(next := T.Add64(s.clock, recs[a].ms)));
    forall f: FiberId ensures Armed(q, Wakes(f)) == Armed(s.p.timers, Wakes(f)) {
      RefreshWeight(s.p.timers, a, s.clock, Wakes(f));
    }
    TimersKeep(s, q);
  }

  lemma UserResetKeeps(s: State, a: nat, ms: T.u64, fromNow: bool)
    requires SysInv(s) && UsersTimer(s, a)
    ensures SysInv(WithTimers(s, T.Reset(s.p.timers, a, ms, fromNow, s.clock).0))
  {
    hide T.Reset;
    var q := T.Reset(s.p.timers, a, ms, fromNow, s.clock).0;
    var recs := s.p.timers.recs;
    T.ResetIntegrity(s.p.timers, a, ms, fromNow, s.clock);
    var start := if fromNow then s.clock else T.Sub64(recs[a].next, recs[a].ms);
    RewriteUsersTimer(s.calls, s.p.fl.fibers, recs, a, recs[a].(ms := ms, next := T.Add64(start, ms)));
    forall f: FiberId ensures Armed(q, Wakes(f)) == Armed(s.p.timers, Wakes(f)) {
      ResetWeight(s.p.timers, a, ms, fromNow, s.clock, Wakes(f));
    }
    TimersKeep(s, q);
  }

  lemma UserAddKeeps(s: State, fd: nat, ev: E.Event, n: nat, granted: bool)
    requires SysInv(s) && CanUserAdd(s, fd, ev, n, granted)
    ensures SysInv(Woken(s, E.AddEvent(s.p.table, fd, ev, CallbackOf(User(n)), granted)))
  {
    hide E.AddEvent, E.Kept;
    var x := CallbackOf(User(n));
    var r := E.AddEvent(s.p.table, fd, ev, x, granted);
    E.AddEventKeeps(s.p.table, fd, ev, x, granted);
    forall y: Content | y != x ensures E.Occurs([x], y) == 0 {
      SumAppend([], x, E.Same(y));
      assert [] + [x] == [x];
    }
    WokenKeeps(s, r, if r.ok then [x] else []);
  }

  /** `delEvent` of a callback's registration: only that callback is dropped. */
  lemma UserDelKeeps(s: State, fd: nat, ev: E.Event, granted: bool)
    requires SysInv(s) && CanUserDel(s, fd, ev, granted)
    ensures SysInv(Woken(s, E.DelEvent(s.p.table, fd, ev, granted)))
  {
    hide E.DelEvent, E.CancelEvent, E.Kept;
    var r := E.DelEvent(s.p.table, fd, ev, granted);
    E.DelEventIsSilentCancel(s.p.table, fd, ev, granted);
    E.CancelEventKeeps(s.p.table, fd, ev, granted);
    forall f: FiberId ensures E.Occurs(r.dropped, FiberOf(f)) == 0 {
      if r.dropped != [] {
        var c := s.p.table.ctxs[fd].Get(ev);
        assert r.dropped == E.Waiter(c) && c.fiber.None?;
        if c.cb.Some? {
          SumAppend([], CallbackOf(c.cb.value), E.Same(FiberOf(f)));
          assert [] + r.dropped == r.dropped;
        }
      }
    }
    WokenKeeps(s, r, []);
  }

  lemma UserCancelEventKeeps(s: State, fd: nat, ev: E.Event, granted: bool)
    requires SysInv(s)
    ensures E.CancelEvent(s.p.table, fd, ev, granted).Done?
    ensures SysInv(Woken(s, E.CancelEvent(s.p.table, fd, ev, granted)))
  {
    hide E.CancelEvent, E.Kept;
    E.CancelEventKeeps(s.p.table, fd, ev, granted);
    WokenKeeps(s, E.CancelEvent(s.p.table, fd, ev, granted), []);
  }

  lemma UserCloseKeeps(s: State, fd: nat, granted: bool)
    requires SysInv(s)
    ensures E.CancelAll(s.p.table, fd, granted).Done?
    ensures SysInv(Woken(s, E.CancelAll(s.p.table, fd, granted)))
  {
    hide E.CancelAll, E.Kept;
    E.CancelAllKeeps(s.p.table, fd, granted);
    WokenKeeps(s, E.CancelAll(s.p.table, fd, granted), []);
  }

  // ---------------------------------------------------------------- every action

  lemma WorkerActKeeps(s: State, i: nat, a: WorkerAct)
    requires SysInv(s) && CanWorker(s, i, a)
    ensures SysInv(DoWorker(s, i, a))
  {
    assert T.Inv(s.p.timers);
    hide SysInv;
    match a
    case Scan => ScanKeeps(s, i);
    case Load => LoadKeeps(s, i);
    case Count => CountKeeps(s, i);
    case Enter => EnterKeeps(s, i);
    case Uncount => UncountKeeps(s, i);
    case SettleCb => SettleKeepsSys(s, i);
    case AskStop => AskStopKeeps(s, i);
    case Wait(now, probe, evs) => WaitKeeps(s, i, now, probe, evs);
    case ScheduleExpired => ScheduleExpiredKeeps(s, i);
    case DispatchOne(granted) => DispatchKeepsSys(s, i, granted);
    case LeaveWait => LeaveWaitKeeps(s, i);
    case LeaveIdle => LeaveWaitKeeps(s, i);
  }

  lemma FiberActKeeps(s: State, i: nat, a: FiberAct)
    requires SysInv(s) && CanFiber(s, i, a)
    ensures SysInv(DoFiber(s, i, a))
  {
    assert T.Inv(s.p.timers) && E.Inv(s.p.table);
    hide SysInv;
    match a
    case BeginUser => GoOutside(s, i, Code);
    case BeginWake => BeginWakeKeeps(s, i);
    case BeginTimeout => BeginTimeoutKeeps(s, i);
    case CancelWait(granted) => CancelWaitKeeps(s, i, granted);
    case EndFiber(threw) => EndKeeps(s, i, threw);
    case IoStart(fd, ev, to) => IoStartKeeps(s, i, fd, ev, to);
    case IoDone =>
      NoTimerOutside(s, i);
      ReturnKeeps(s, i, Returned);
    case IoAgain(a, born) => IoAgainKeeps(s, i, a, born);
    case IoAdd(granted) => IoAddKeeps(s, i, granted);
    case IoGiveUp => IoGiveUpKeeps(s, i);
    case IoPark => ParkKeeps(s, i, IoParked(MyCall(s, i)));
    case IoDisarm => IoDisarmKeeps(s, i);
    case IoReadFlag => IoReadFlagKeeps(s, i);
    case SleepStart(a, born, ms) => SleepStartKeeps(s, i, a, born, ms);
    case SleepPark => ParkKeeps(s, i, SleepParked);
  }

  lemma UserActKeeps(s: State, a: UserAct)
    requires SysInv(s) && CanUser(s, a)
    ensures SysInv(DoUser(s, a))
  {
    assert T.Inv(s.p.timers);
    hide SysInv;
    match a
    case Submit(n, thread) => QueuedKeeps(s, n, thread);
    case Spawn(n, thread) => SpawnKeepsSys(s, n, thread);
    case UserTimer(a, born, ms, n, recurring) => UserTimerKeeps(s, a, born, ms, n, recurring);
    case UserCancel(a) => CancelTimerKeeps(s, a);
    case UserRefresh(a) => UserRefreshKeeps(s, a);
    case UserReset(a, ms, fromNow) => UserResetKeeps(s, a, ms, fromNow);
    case UserAdd(fd, ev, n, granted) => UserAddKeeps(s, fd, ev, n, granted);
    case UserDel(fd, ev, granted) => UserDelKeeps(s, fd, ev, granted);
    case UserCancelEvent(fd, ev, granted) => UserCancelEventKeeps(s, fd, ev, granted);
    case UserClose(fd, granted) => UserCloseKeeps(s, fd, granted);
  }

  lemma TickKeeps(s: State, t: T.u64)
    requires SysInv(s) && s.clock <= t
    ensures SysInv(s.(clock := t))
  {
    InHandGrows(s.p.queue, s.p.fl, s.calls, s.clock, s.rolled, s.calls, t, s.rolled);
    hide E.Inv, T.Inv, SlotsClean, FleetInv, Links, TimerLinks, TokenInv, InHand;
  }

  lemma DoKeeps(s: State, a: Action)
    requires SysInv(s) && Can(s, a)
    ensures SysInv(Do(s, a))
  {
    match a
    case ByWorker(i, w) => WorkerActKeeps(s, i, w);
    case ByFiber(i, f) => FiberActKeeps(s, i, f);
    case ByUser(who, u) => UserActKeeps(s, u);
    case Tick(t) => TickKeeps(s, t);
    case Stop =>
  }

  // ---------------------------------------------------------------- runs

  /** Workers at the top of their loops, and nothing else. */
  function Start(workers: nat, clock: T.u64): State {
    State(clock, [],
          Places([], E.Table(E.Resize([], 32), 0, map[]), T.Queue(map[], [], false, clock),
                 Fleet([], seq(workers, i => Worker(Head, None, false)), 0, 0)),
          false, false, false, false)
  }

  lemma {:induction false} HeadWorkers(workers: nat, g: Worker -> int)
    requires g(Worker(Head, None, false)) == 0
    ensures Sum(seq(workers, i => Worker(Head, None, false)), g) == 0
  {
    if workers > 0 {
      HeadWorkers(workers - 1, g);
      assert seq(workers, i => Worker(Head, None, false))[1..] == seq(workers - 1, i => Worker(Head, None, false));
    }
  }

  lemma StartInv(workers: nat, clock: T.u64)
    ensures SysInv(Start(workers, clock))
  {
    var s := Start(workers, clock);
    IdleTable();
    StartFleet(workers, clock);
    hide E.Inv, FleetInv;
    assert TokenInv(s.p) by {
      forall f: FiberId ensures Held(s.p, f) == 0 {
        HeadWorkers(workers, InWorker(f));
      }
    }
  }

  lemma StartFleet(workers: nat, clock: T.u64)
    ensures FleetInv(Start(workers, clock).p.fl)
  {
    HeadWorkers(workers, IsActive());
    HeadWorkers(workers, IsIdle());
  }

  lemma IdleTable()
    ensures var t := E.Table(E.Resize([], 32), 0, map[]);
            E.Inv(t) && forall x: Content :: E.Waiting(t, x) == 0
  {
    EventSteps.EmptyTable();
    forall x: Content ensures Sum(E.Resize([], 32), E.Holds(x)) == 0 {
      EventRuns.IdleHasNoWaiters(32, x);
    }
  }

  /** A run; actions that are not possible when their turn comes do nothing. */
  ghost function Run(s: State, acts: seq<Action>): (s': State)
    requires SysInv(s)
    ensures SysInv(s')
    decreases |acts|
  {
    if acts == [] then s
    else if Can(s, acts[0]) then
      DoKeeps(s, acts[0]);
      Run(Do(s, acts[0]), acts[1..])
    else Run(s, acts[1..])
  }

  /** The state after a run from the start. */
  ghost function After(workers: nat, clock: T.u64, acts: seq<Action>): (s: State)
    ensures SysInv(s)
  {
    StartInv(workers, clock);
    Run(Start(workers, clock), acts)
  }
}
