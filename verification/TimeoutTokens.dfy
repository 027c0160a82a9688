/** Where the timeout of a blocking call is: how many closures of its latest condition timer exist, and
    that every action moves them about without making or losing any unnoticed. */
module TimeoutTokens {
  import opened Common
  import opened Sums
  import opened Fleet
  import opened Tokens
  import opened TimerWeights
  import opened Runtime
  import opened RuntimeSteps
  import opened RuntimeShapes
  import T = TimerSpec
  import E = EventSpec
  import QS = QueueSpec

  // ---------------------------------------------------------------- the count

  function Weight(cb: Callback, c: nat, k: nat): (r: int)
    ensures 0 <= r <= 1
  {
    if cb == Timeout(c, k) then 1 else 0
  }

  function IsTimeout(c: nat, k: nat): Callback -> int { (cb: Callback) => Weight(cb, c, k) }

  function EntryWeight(e: Entry, c: nat, k: nat): int {
    if e.content.CallbackOf? then Weight(e.content.cb, c, k) else 0
  }

  function InQueue(c: nat, k: nat): Entry -> int { (e: Entry) => EntryWeight(e, c, k) }

  /** Taken from the queue, or expired and not yet scheduled. */
  function WithWorker(c: nat, k: nat): Worker -> int {
    (w: Worker) =>
      match w.pc
      case Took(e) => EntryWeight(e, c, k)
      case IdleGot(cbs, _) => Sum(cbs, IsTimeout(c, k))
      case _ => 0
  }

  /** Loaded into a fiber, or about to be called by one. */
  function WithFiber(c: nat, k: nat): Fiber -> int {
    (x: Fiber) =>
      match x.pc
      case Loaded(cb) => Weight(cb, c, k)
      case Fresh(cb) => Weight(cb, c, k)
      case Begin(cb) => Weight(cb, c, k)
      case _ => 0
  }

  /** The closures of the call's timer number `k` that have not begun. */
  function Pending(p: Places, c: nat, k: nat): int {
    Armed(p.timers, IsTimeout(c, k)) + Sum(p.queue, InQueue(c, k))
    + Sum(p.fl.workers, WithWorker(c, k)) + Sum(p.fl.fibers, WithFiber(c, k))
  }

  lemma PendingParts(p: Places, c: nat, k: nat)
    ensures Armed(p.timers, IsTimeout(c, k)) >= 0 && Sum(p.queue, InQueue(c, k)) >= 0
    ensures Sum(p.fl.workers, WithWorker(c, k)) >= 0 && Sum(p.fl.fibers, WithFiber(c, k)) >= 0
  {
    var g := OfTimer(p.timers.recs, IsTimeout(c, k));
    forall i | 0 <= i < |p.timers.armed| ensures g(p.timers.armed[i]) >= 0 {
      var a := p.timers.armed[i];
      if a in p.timers.recs && p.timers.recs[a].cb.Some? {
        assert g(a) == Weight(p.timers.recs[a].cb.value, c, k);
      }
    }
    SumNonNegative(p.timers.armed, g);
    SumNonNegative(p.queue, InQueue(c, k));
    forall i | 0 <= i < |p.fl.workers| ensures WithWorker(c, k)(p.fl.workers[i]) >= 0 {
      if p.fl.workers[i].pc.IdleGot? {
        SumNonNegative(p.fl.workers[i].pc.cbs, IsTimeout(c, k));
      }
    }
    SumNonNegative(p.fl.workers, WithWorker(c, k));
    SumNonNegative(p.fl.fibers, WithFiber(c, k));
  }

  // ---------------------------------------------------------------- what a worker does to the count

  lemma PutPending(fibers: seq<Fiber>, t: Option<(FiberId, Fiber)>, c: nat, k: nat)
    requires t.Some? ==> t.value.0 <= |fibers|
    ensures Sum(Put(fibers, t), WithFiber(c, k)) == Sum(fibers, WithFiber(c, k))
              + (if t.Some? then WithFiber(c, k)(t.value.1) else 0)
              - (if t.Some? && t.value.0 < |fibers| then WithFiber(c, k)(fibers[t.value.0]) else 0)
  {
    if t.Some? {
      if t.value.0 < |fibers| {
        SumUpdate(fibers, t.value.0, t.value.1, WithFiber(c, k));
      } else {
        SumAppend(fibers, t.value.1, WithFiber(c, k));
      }
    }
  }

  lemma {:induction false} CallsPending(cbs: seq<Callback>, c: nat, k: nat)
    ensures Sum(Unpinned(Calls(cbs)), InQueue(c, k)) == Sum(cbs, IsTimeout(c, k))
  {
    if cbs != [] {
      CallsPending(cbs[1..], c, k);
      assert Calls(cbs)[1..] == Calls(cbs[1..]);
      var e := Entry(CallbackOf(cbs[0]), -1);
      SumConcat([e], Unpinned(Calls(cbs[1..])), InQueue(c, k));
      assert Sum([e], InQueue(c, k)) == InQueue(c, k)(e) + Sum([], InQueue(c, k));
    }
  }

  /** What leaves event slots is no timeout. */
  lemma {:induction false} WokenPending(xs: seq<Content>, c: nat, k: nat)
    requires forall n :: 0 <= n < |xs| && xs[n].CallbackOf? ==> xs[n].cb.User?
    ensures Sum(Unpinned(xs), InQueue(c, k)) == 0
  {
    if xs != [] {
      assert forall n :: 0 <= n < |xs[1..]| ==> xs[1..][n] == xs[n + 1];
      assert xs[0].CallbackOf? ==> xs[0].cb != Timeout(c, k);
      WokenPending(xs[1..], c, k);
      var e := Entry(xs[0], -1);
      assert InQueue(c, k)(e) == 0;
      SumConcat([e], Unpinned(xs[1..]), InQueue(c, k));
      assert Sum([e], InQueue(c, k)) == InQueue(c, k)(e) + Sum([], InQueue(c, k));
    }
  }

  lemma DispatchedPending(s: State, i: nat, granted: bool, c: nat, k: nat)
    requires SysInv(s) && CanDispatch(s, i, granted)
    ensures Sum(Unpinned(Dispatched(s, i, granted).woken), InQueue(c, k)) == 0
  {
    var r := Dispatched(s, i, granted);
    E.DispatchKeeps(s.p.table, PcAt(s, i).evs[0].0, PcAt(s, i).evs[0].1, granted);
    hide E.Dispatch, E.Kept, E.Inv, T.Inv;
    SlotsStayClean(s.p.table, r, []);
    WokenPending(r.woken, c, k);
  }

  /** What the queue and the worker's hand hold together. */
  lemma QueueAndHand(s: State, i: nat, a: WorkerAct, c: nat, k: nat)
    requires T.Inv(s.p.timers) && CanWorker(s, i, a) && !a.Load? && !a.Wait?
    requires a.DispatchOne? ==> Sum(Unpinned(Dispatched(s, i, a.granted).woken), InQueue(c, k)) == 0
    ensures Sum(WorkersQueue(s, i, a), InQueue(c, k)) + WithWorker(c, k)(WorkerAfter(s, i, a))
         == Sum(s.p.queue, InQueue(c, k)) + WithWorker(c, k)(s.p.fl.workers[i])
  {
    hide T.Inv, QS.Scan, E.Dispatch, Stopping, Sum;
    match a {
      case Scan =>
        if ScanStop(s, i) < |s.p.queue| {
          SumRemove(s.p.queue, ScanStop(s, i), InQueue(c, k));
        }
      case ScheduleExpired =>
        CallsPending(PcAt(s, i).cbs, c, k);
        SumConcat(s.p.queue, Unpinned(Calls(PcAt(s, i).cbs)), InQueue(c, k));
      case DispatchOne(granted) =>
        SumConcat(s.p.queue, Unpinned(Dispatched(s, i, granted).woken), InQueue(c, k));
      case _ =>
    }
  }

  /** A fiber that a worker touches keeps its closure; only a spare gets one. */
  lemma TouchedPending(s: State, i: nat, a: WorkerAct, c: nat, k: nat)
    requires FleetInv(s.p.fl) && CanWorker(s, i, a) && Touched(s, i, a).Some?
    ensures var t := Touched(s, i, a).value;
            && t.0 <= |s.p.fl.fibers|
            && WithFiber(c, k)(t.1)
               == (if t.0 < |s.p.fl.fibers| then WithFiber(c, k)(s.p.fl.fibers[t.0]) else 0)
                  + (if a.Load? then WithWorker(c, k)(s.p.fl.workers[i]) else 0)
  {
    assert WorkerFits(s.p.fl.workers[i], s.p.fl.fibers);
    var t := Touched(s, i, a).value;
    var w := s.p.fl.workers[i];
    assert t.0 < |s.p.fl.fibers| ==> StateFits(s.p.fl.fibers[t.0]);
    if a.Enter? {
      var pc := s.p.fl.fibers[w.pc.f].pc;
      assert pc.Loaded? || pc.Fresh? || Parked(pc);
    }
    hide SysInv;
  }

  lemma ExpiryPending(s: State, now: T.u64, probe: nat, c: nat, k: nat)
    requires SysInv(s)
    ensures Armed(Expiry(s, now, probe).0, IsTimeout(c, k)) + Sum(Expiry(s, now, probe).1, IsTimeout(c, k))
         == Armed(s.p.timers, IsTimeout(c, k))
  {
    assert T.Inv(s.p.timers) && TimerLinks(s.calls, s.p.fl.fibers, s.p.timers.recs);
    hide SysInv, T.Inv, T.Expire;
    ExpireWeight(s.p.timers, now, probe, IsTimeout(c, k));
  }

  /** How much the fiber that the action touches gains. */
  ghost function Gained(s: State, i: nat, a: WorkerAct, c: nat, k: nat): int
    requires CanWorker(s, i, a)
  {
    match Touched(s, i, a)
    case None => 0
    case Some(t) => WithFiber(c, k)(t.1) - if t.0 < |s.p.fl.fibers| then WithFiber(c, k)(s.p.fl.fibers[t.0]) else 0
  }

  lemma WorkersAccount(s: State, i: nat, a: WorkerAct, c: nat, k: nat)
    requires T.Inv(s.p.timers) && CanWorker(s, i, a)
    requires Touched(s, i, a).Some? ==> Touched(s, i, a).value.0 <= |s.p.fl.fibers|
    requires Armed(WorkersTimers(s, i, a), IsTimeout(c, k)) + Sum(WorkersQueue(s, i, a), InQueue(c, k))
             + WithWorker(c, k)(WorkerAfter(s, i, a)) + Gained(s, i, a, c, k)
          == Armed(s.p.timers, IsTimeout(c, k)) + Sum(s.p.queue, InQueue(c, k)) + WithWorker(c, k)(s.p.fl.workers[i])
    ensures Pending(DoWorker(s, i, a).p, c, k) == Pending(s.p, c, k)
  {
    hide T.Inv, DoWorker, CanWorker, Touched, WorkerAfter, WorkersQueue, WorkersTimers, Put, WithFiber, WithWorker, Armed, Sum,
         Stopping, InFlight;
    WorkerShape(s, i, a);
    OnlyTheDoneExit(s, i, a);
    PutPending(s.p.fl.fibers, Touched(s, i, a), c, k);
    SumUpdate(s.p.fl.workers, i, WorkerAfter(s, i, a), WithWorker(c, k));
  }

  /** No action of a worker makes a closure or loses one. */
  lemma WorkersKeepPending(s: State, i: nat, a: WorkerAct, c: nat, k: nat)
    requires SysInv(s) && CanWorker(s, i, a)
    ensures Pending(DoWorker(s, i, a).p, c, k) == Pending(s.p, c, k)
  {
    assert T.Inv(s.p.timers);
    hide SysInv, T.Inv, DoWorker, CanWorker, Touched, WorkerAfter, WorkersQueue, WorkersTimers, WithFiber, WithWorker, Armed, Sum, Pending;
    if Touched(s, i, a).Some? {
      TouchedPending(s, i, a, c, k);
    }
    if a.Wait? {
      ExpiryPending(s, a.now, a.probe, c, k);
      WaitPending(s, i, a, c, k);
    } else {
      if a.DispatchOne? {
        DispatchedPending(s, i, a.granted, c, k);
      }
      if !a.Load? {
        QueueAndHand(s, i, a, c, k);
      }
      OthersPending(s, i, a, c, k);
    }
    WorkersAccount(s, i, a, c, k);
  }

  lemma WaitPending(s: State, i: nat, a: WorkerAct, c: nat, k: nat)
    requires T.Inv(s.p.timers) && CanWorker(s, i, a) && a.Wait?
    ensures Touched(s, i, a).None? && WorkersQueue(s, i, a) == s.p.queue
    ensures WithWorker(c, k)(s.p.fl.workers[i]) == 0
    ensures WithWorker(c, k)(WorkerAfter(s, i, a)) == Sum(Expiry(s, a.now, a.probe).1, IsTimeout(c, k))
    ensures WorkersTimers(s, i, a) == Expiry(s, a.now, a.probe).0
  {
    hide T.Inv, T.Expire;
  }

  lemma OthersPending(s: State, i: nat, a: WorkerAct, c: nat, k: nat)
    requires T.Inv(s.p.timers) && CanWorker(s, i, a) && !a.Wait?
    ensures Armed(WorkersTimers(s, i, a), IsTimeout(c, k)) == Armed(s.p.timers, IsTimeout(c, k))
    ensures a.Load? ==> Touched(s, i, a).Some? && WorkersQueue(s, i, a) == s.p.queue && WithWorker(c, k)(WorkerAfter(s, i, a)) == 0
  {
    hide T.Inv, T.Expire, Stopping;
  }

  // ---------------------------------------------------------------- what a fiber does to the count

  /** `do_io` arms a new timer. */
  predicate Arms(s: State, i: nat, a: FiberAct, c: nat, k: nat)
    requires CanFiber(s, i, a)
  {
    a.IoAgain? && MyCall(s, i) == c && s.calls[c].to.Some? && |s.calls[c].arms| == k
  }

  /** The closure begins. */
  predicate Begins(s: State, i: nat, a: FiberAct, c: nat, k: nat)
    requires CanFiber(s, i, a)
  {
    a.BeginTimeout? && MyPc(s, i).cb == Timeout(c, k)
  }

  /** What `do_io` takes away when it cancels its timer. */
  function Disarms(s: State, i: nat, a: FiberAct, c: nat, k: nat): int
    requires CanFiber(s, i, a)
  {
    if (a.IoGiveUp? || a.IoDisarm?) && s.calls[MyCall(s, i)].timer.Some? then
      OfTimer(s.p.timers.recs, IsTimeout(c, k))(s.calls[MyCall(s, i)].timer.value)
    else 0
  }

  lemma FibersQueue(s: State, i: nat, a: FiberAct, c: nat, k: nat)
    requires SysInv(s) && CanFiber(s, i, a) && (a.CancelWait? ==> Cancelled(s, i, a.granted).Done?)
    ensures Sum(QueueAfter(s, i, a), InQueue(c, k)) == Sum(s.p.queue, InQueue(c, k))
  {
    assert E.Inv(s.p.table) && CallInv(s);
    match a {
      case BeginWake =>
        SumAppend(s.p.queue, Entry(FiberOf(MyPc(s, i).cb.f), -1), InQueue(c, k));
      case CancelWait(granted) =>
        var call := s.calls[MyPc(s, i).c];
        var r := Cancelled(s, i, granted);
        E.CancelEventKeeps(s.p.table, call.fd, call.ev, granted);
        WokenAppended(s, r, c, k);
      case IoAdd(granted) =>
        var call := s.calls[MyCall(s, i)];
        E.AddEventKeeps(s.p.table, call.fd, call.ev, FiberOf(Me(s, i)), granted);
        assert s.p.queue + Unpinned([]) == s.p.queue;
      case _ =>
    }
    hide SysInv, E.Inv, CallInv, E.AddEvent, E.CancelEvent, E.Kept;
  }

  lemma WokenAppended(s: State, r: E.Result, c: nat, k: nat)
    requires SysInv(s) && r.Done? && E.Kept(s.p.table, r, [])
    ensures Sum(s.p.queue + Unpinned(r.woken), InQueue(c, k)) == Sum(s.p.queue, InQueue(c, k))
  {
    SlotsStayClean(s.p.table, r, []);
    WokenPending(r.woken, c, k);
    SumConcat(s.p.queue, Unpinned(r.woken), InQueue(c, k));
  }

  lemma FibersTimers(s: State, i: nat, a: FiberAct, c: nat, k: nat)
    requires T.Inv(s.p.timers) && CanFiber(s, i, a)
    ensures Armed(TimersAfter(s, i, a), IsTimeout(c, k))
         == Armed(s.p.timers, IsTimeout(c, k)) + (if Arms(s, i, a, c, k) then 1 else 0) - Disarms(s, i, a, c, k)
  {
    hide T.Inv, T.Add, T.Cancel, Armed;
    if a.IoAgain? && s.calls[MyCall(s, i)].to.Some? {
      var call := s.calls[MyCall(s, i)];
      AddWeight(s.p.timers, a.a, a.born, call.to.value, Timeout(MyCall(s, i), |call.arms|), false, IsTimeout(c, k));
    } else if (a.IoGiveUp? || a.IoDisarm?) && s.calls[MyCall(s, i)].timer.Some? {
      CancelWeight(s.p.timers, s.calls[MyCall(s, i)].timer.value, IsTimeout(c, k));
    } else if a.SleepStart? {
      AddWeight(s.p.timers, a.a, a.born, a.ms, Wake(Me(s, i)), false, IsTimeout(c, k));
    }
  }

  lemma FibersFleet(s: State, i: nat, a: FiberAct, c: nat, k: nat)
    requires CanFiber(s, i, a)
    ensures Sum(FleetAfter(s, i, a).workers, WithWorker(c, k)) == Sum(s.p.fl.workers, WithWorker(c, k))
    ensures Sum(FleetAfter(s, i, a).fibers, WithFiber(c, k))
         == Sum(s.p.fl.fibers, WithFiber(c, k)) - (if Begins(s, i, a, c, k) then 1 else 0)
  {
    ActsFromWithin(s, i, a);
    HandsOver(s, i, a, c, k);
    hide CanFiber, NextPc, WithFiber, WithWorker;
    var f := Me(s, i);
    SumUpdate(s.p.fl.fibers, f, FiberAfter(s, i, a), WithFiber(c, k));
    assert s.p.fl.fibers[f].(pc := NextPc(s, i, a)) == s.p.fl.fibers[f].(pc := FiberAfter(s, i, a).pc);
    if Leaves(a) {
      SumUpdate(s.p.fl.workers, i, FleetAfter(s, i, a).workers[i], WithWorker(c, k));
    }
  }

  /** The acting fiber has no closure in hand afterwards, and had one only if it begins it. */
  lemma HandsOver(s: State, i: nat, a: FiberAct, c: nat, k: nat)
    requires CanFiber(s, i, a) && Running(s, i)
    ensures WithFiber(c, k)(FiberAfter(s, i, a)) == 0
    ensures WithFiber(c, k)(s.p.fl.fibers[Me(s, i)]) == if Begins(s, i, a, c, k) then 1 else 0
    ensures WithWorker(c, k)(s.p.fl.workers[i]) == 0
    ensures forall w: Worker :: w.pc.Outside? ==> WithWorker(c, k)(w) == 0
    ensures !Leaves(a) ==> FiberAfter(s, i, a).state == s.p.fl.fibers[Me(s, i)].state
  {
    var pc := MyPc(s, i);
    if a.BeginUser? || a.BeginWake? || a.BeginTimeout? {
      assert pc.Begin?;
    } else {
      assert !pc.Begin? && !pc.Loaded? && !pc.Fresh?;
    }
  }

  /** A fiber makes a closure by arming its timer, uses one up by beginning it, and takes one away by
      cancelling its timer; nothing else. */
  lemma FibersChangePending(s: State, i: nat, a: FiberAct, c: nat, k: nat)
    requires SysInv(s) && CanFiber(s, i, a)
    ensures Pending(DoFiber(s, i, a).p, c, k)
         == Pending(s.p, c, k) + (if Arms(s, i, a, c, k) then 1 else 0)
              - (if Begins(s, i, a, c, k) then 1 else 0) - Disarms(s, i, a, c, k)
  {
    assert T.Inv(s.p.timers) && E.Inv(s.p.table);
    FiberShape(s, i, a);
    FibersQueue(s, i, a, c, k);
    FibersTimers(s, i, a, c, k);
    FibersFleet(s, i, a, c, k);
    hide SysInv, T.Inv, E.Inv, DoFiber, CanFiber, CallsAfter, QueueAfter, TableAfter, TimersAfter, FleetAfter, Cancelled, Arms, Begins,
         Disarms, Armed, Sum;
  }

  // ---------------------------------------------------------------- user code

  lemma SubmitsKeepPending(s: State, a: UserAct, c: nat, k: nat)
    requires T.Inv(s.p.timers) && CanUser(s, a) && (a.Submit? || a.Spawn?)
    ensures Pending(DoUser(s, a).p, c, k) == Pending(s.p, c, k)
  {
    hide T.Inv;
    var s' := DoUser(s, a);
    var e := s'.p.queue[|s.p.queue|];
    assert s'.p.queue == s.p.queue + [e];
    SumAppend(s.p.queue, e, InQueue(c, k));
    if a.Spawn? {
      SumAppend(s.p.fl.fibers, Fiber(INIT, Fresh(User(a.n))), WithFiber(c, k));
    }
  }

  predicate OnTimers(a: UserAct) { a.UserTimer? || a.UserCancel? || a.UserRefresh? || a.UserReset? }

  lemma TimersKeepPending(s: State, a: UserAct, c: nat, k: nat)
    requires T.Inv(s.p.timers) && CanUser(s, a) && OnTimers(a)
    ensures Pending(DoUser(s, a).p, c, k) == Pending(s.p, c, k)
  {
    var g := IsTimeout(c, k);
    match a {
      case UserTimer(a, born, ms, n, recurring) => AddWeight(s.p.timers, a, born, ms, User(n), recurring, g);
      case UserCancel(a) => CancelWeight(s.p.timers, a, g);
      case UserRefresh(a) => RefreshWeight(s.p.timers, a, s.clock, g);
      case UserReset(a, ms, fromNow) => ResetWeight(s.p.timers, a, ms, fromNow, s.clock, g);
      case _ =>
    }
    hide T.Inv, T.Add, T.Cancel, T.Refresh, T.Reset, Armed, Sum;
  }

  lemma RegistrationsKeepPending(s: State, a: UserAct, c: nat, k: nat)
    requires SysInv(s) && CanUser(s, a) && (a.UserAdd? || a.UserDel?)
    ensures Pending(DoUser(s, a).p, c, k) == Pending(s.p, c, k)
  {
    assert T.Inv(s.p.timers) && E.Inv(s.p.table);
    assert s.p.queue + Unpinned([]) == s.p.queue;
    hide SysInv, T.Inv, E.Inv, E.AddEvent, E.DelEvent, E.Kept, Sum, Armed;
    if a.UserAdd? {
      E.AddEventKeeps(s.p.table, a.fd, a.ev, CallbackOf(User(a.n)), a.granted);
    } else {
      E.DelEventIsSilentCancel(s.p.table, a.fd, a.ev, a.granted);
    }
  }

  lemma WokenKeepPending(s: State, r: E.Result, c: nat, k: nat)
    requires SysInv(s) && r.Done? && E.Kept(s.p.table, r, [])
    ensures Pending(Woken(s, r).p, c, k) == Pending(s.p, c, k)
  {
    hide SysInv, E.Kept, Armed, Sum;
    WokenAppended(s, r, c, k);
  }

  lemma CancelsKeepPending(s: State, a: UserAct, c: nat, k: nat)
    requires SysInv(s) && CanUser(s, a) && (a.UserCancelEvent? || a.UserClose?)
    ensures Pending(DoUser(s, a).p, c, k) == Pending(s.p, c, k)
  {
    assert T.Inv(s.p.timers) && E.Inv(s.p.table);
    hide SysInv, T.Inv, E.Inv, E.Kept, E.CancelEvent, E.CancelAll, Pending, Woken;
    if a.UserClose? {
      E.CancelAllKeeps(s.p.table, a.fd, a.granted);
      WokenKeepPending(s, E.CancelAll(s.p.table, a.fd, a.granted), c, k);
    } else {
      E.CancelEventKeeps(s.p.table, a.fd, a.ev, a.granted);
      WokenKeepPending(s, E.CancelEvent(s.p.table, a.fd, a.ev, a.granted), c, k);
    }
  }

  lemma UsersKeepPending(s: State, a: UserAct, c: nat, k: nat)
    requires SysInv(s) && CanUser(s, a)
    ensures Pending(DoUser(s, a).p, c, k) == Pending(s.p, c, k)
  {
    assert T.Inv(s.p.timers);
    hide SysInv, CanUser, DoUser, Pending;
    if a.UserAdd? || a.UserDel? {
      RegistrationsKeepPending(s, a, c, k);
    } else if a.UserCancelEvent? || a.UserClose? {
      CancelsKeepPending(s, a, c, k);
    } else if OnTimers(a) {
      TimersKeepPending(s, a, c, k);
    } else {
      SubmitsKeepPending(s, a, c, k);
    }
  }

  // ---------------------------------------------------------------- timers not armed yet

  /** No closure exists of a timer that the call has yet to arm. */
  lemma NoFuturePending(s: State, c: nat, k: nat)
    requires SysInv(s) && c < |s.calls| && k >= |s.calls[c].arms|
    ensures Pending(s.p, c, k) == 0
  {
    assert InHand(s.p.queue, s.p.fl, s.calls, s.clock, s.rolled) && TimerLinks(s.calls, s.p.fl.fibers, s.p.timers.recs);
    hide SysInv;
    forall cb | CbOk(cb, s.calls, s.clock, s.rolled) ensures Weight(cb, c, k) == 0 {}
    forall i | 0 <= i < |s.p.queue| ensures InQueue(c, k)(s.p.queue[i]) == 0 {
      assert EntryOk(s.p.queue[i], s.calls, s.clock, s.rolled);
    }
    SumZero(s.p.queue, InQueue(c, k));
    forall i | 0 <= i < |s.p.fl.workers| ensures WithWorker(c, k)(s.p.fl.workers[i]) == 0 {
      HandIsPast(s.p.fl.workers[i], s.calls, s.clock, s.rolled, c, k);
    }
    SumZero(s.p.fl.workers, WithWorker(c, k));
    forall f | 0 <= f < |s.p.fl.fibers| ensures WithFiber(c, k)(s.p.fl.fibers[f]) == 0 {
      assert FiberOk(s.p.fl.fibers[f], s.calls, s.clock, s.rolled);
    }
    SumZero(s.p.fl.fibers, WithFiber(c, k));
    forall i | 0 <= i < |s.p.timers.armed| ensures OfTimer(s.p.timers.recs, IsTimeout(c, k))(s.p.timers.armed[i]) == 0 {
      var a := s.p.timers.armed[i];
      assert a in s.p.timers.recs ==> TimeoutTimer(s.calls, s.p.fl.fibers, a, s.p.timers.recs[a]);
    }
    SumZero(s.p.timers.armed, OfTimer(s.p.timers.recs, IsTimeout(c, k)));
  }

  lemma HandIsPast(w: Worker, calls: seq<Call>, clock: T.u64, rolled: bool, c: nat, k: nat)
    requires WorkerOk(w, calls, clock, rolled) && c < |calls| && k >= |calls[c].arms|
    ensures WithWorker(c, k)(w) == 0
  {
    if w.pc.IdleGot? {
      forall n | 0 <= n < |w.pc.cbs| ensures IsTimeout(c, k)(w.pc.cbs[n]) == 0 {
        assert CbOk(w.pc.cbs[n], calls, clock, rolled);
      }
      SumZero(w.pc.cbs, IsTimeout(c, k));
    }
  }
}
