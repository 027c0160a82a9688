/** `do_io` on the objects: the queue of timers and the event table that it works on, the loop over EINTR,
    and what other threads make of both while the fiber is swapped out. */
module HookedCalls {
  import opened Common
  import opened IoProgram
  import opened Timers
  import opened IOManagers
  import S = Schedulers
  import F = Fleet
  import T = TimerSpec
  import E = EventSpec
  import FF = FdFlags

  const EINTR: int := 4
  const EBADF: int := 9
  const EAGAIN: int := 11
  const ETIMEDOUT: int := 110

  /** What a system call returns, and `errno`. */
  datatype Sys = Sys(n: int, errno: int)

  predicate Interrupted(x: Sys) { x.n == -1 && x.errno == EINTR }

  predicate Blocked(x: Sys) { x.n == -1 && x.errno == EAGAIN }

  /** The first answer that is not EINTR. */
  function First(answers: seq<Sys>): (r: Option<Sys>)
    ensures r.Some? ==> r.value in answers && !Interrupted(r.value)
    ensures r.None? ==> forall k :: 0 <= k < |answers| ==> Interrupted(answers[k])
  {
    if answers == [] then None else if Interrupted(answers[0]) then First(answers[1..]) else Some(answers[0])
  }

  /** `timer_info` */
  class TimerInfo {
    var cancelled: int
    constructor ()
      ensures cancelled == 0
    {
      cancelled := 0;
    }
  }

  /** What stays the same over the turns of one call: its number, descriptor, direction and timeout. */
  datatype Call = Call(c: nat, fd: nat, ev: E.Event, to: Option<T.u64>)

  /** What other threads do to timers ... */
  datatype TimerAct =
    | Expires(now: T.u64, probe: nat)
    | Arms(born: T.u64, ms: T.u64, cb: Callback, recurring: bool)
    | Disarms(i: nat)
    | Refreshes(i: nat, now: T.u64)
    | Resets(i: nat, ms: T.u64, fromNow: bool, now: T.u64)

  /** ... to events ... */
  datatype EventAct =
    | Registers(fd: nat, e: E.Event, cb: Callback)
    | Drops(fd: nat, e: E.Event)
    | Cancels(fd: nat, e: E.Event)
    | CancelsAll(fd: nat)
    | Dispatches(fd: nat, reported: E.Mask)

  /** ... and to the queue: `Takes(i)` takes the i-th entry and runs it if it is a closure of the call. */
  datatype Act = OnTimers(t: TimerAct) | OnEvents(e: EventAct, granted: bool) | Takes(i: nat, granted: bool)

  /** One turn from `retry`: what the system call answers, the clock when the timer is made, whether the
      kernel grants the call of `addEvent`, and what the others do until the fiber is back. */
  datatype Turn = Turn(answers: seq<Sys>, born: T.u64, granted: bool, others: seq<Act>)

  // ---------------------------------------------------------------- timers of the call

  predicate OfCall(cb: Option<Callback>, c: nat) { cb.Some? && cb.value.Timeout? && cb.value.call == c }

  /** No other code makes closures of the call. */
  predicate Foreign(a: Act, c: nat) { a.OnTimers? && a.t.Arms? ==> !OfCall(Some(a.t.cb), c) }

  predicate Foreigners(t: Turn, c: nat) { forall i :: 0 <= i < |t.others| ==> Foreign(t.others[i], c) }

  /** Only timers at these addresses have a closure of the call. */
  ghost predicate Within(recs: T.Records, c: nat, at: set<nat>) {
    forall a :: a in recs && OfCall(recs[a].cb, c) ==> a in at
  }

  /** No timer in the set has a closure of the call. */
  ghost predicate NoneArmed(q: T.Queue, c: nat) {
    forall a :: a in q.armed ==> a in q.recs && !OfCall(q.recs[a].cb, c)
  }

  lemma WithinNothing(q: T.Queue, c: nat)
    requires T.Inv(q) && Within(q.recs, c, {})
    ensures NoneArmed(q, c)
  {
    forall a | a in q.armed ensures a in q.recs {
      var i :| 0 <= i < |q.armed| && q.armed[i] == a;
    }
  }

  lemma CancelWithin(q: T.Queue, a: nat, c: nat, at: set<nat>)
    requires T.Inv(q) && a in q.recs && Within(q.recs, c, at)
    ensures T.Inv(T.Cancel(q, a).0) && Within(T.Cancel(q, a).0.recs, c, at - {a})
  {
    T.CancelIntegrity(q, a);
  }

  lemma RefreshWithin(q: T.Queue, a: nat, now: T.u64, c: nat, at: set<nat>)
    requires T.Inv(q) && a in q.recs && Within(q.recs, c, at)
    ensures T.Inv(T.Refresh(q, a, now).0) && Within(T.Refresh(q, a, now).0.recs, c, at)
  {
    T.RefreshIntegrity(q, a, now);
    hide T.Refresh;
  }

  lemma ResetWithin(q: T.Queue, a: nat, ms: T.u64, fromNow: bool, now: T.u64, c: nat, at: set<nat>)
    requires T.Inv(q) && a in q.recs && Within(q.recs, c, at)
    ensures T.Inv(T.Reset(q, a, ms, fromNow, now).0) && Within(T.Reset(q, a, ms, fromNow, now).0.recs, c, at)
  {
    T.ResetIntegrity(q, a, ms, fromNow, now);
    hide T.Reset;
  }

  lemma AddWithin(q: T.Queue, a: nat, born: T.u64, ms: T.u64, cb: Callback, recurring: bool, c: nat, at: set<nat>)
    requires T.Inv(q) && a !in q.recs && Within(q.recs, c, at)
    ensures T.Inv(T.Add(q, a, born, ms, cb, recurring).0)
    ensures Within(T.Add(q, a, born, ms, cb, recurring).0.recs, c, if OfCall(Some(cb), c) then at + {a} else at)
  {
    T.AddIntegrity(q, a, born, ms, cb, recurring);
    hide T.Add;
  }

  lemma ExpireWithin(q: T.Queue, now: T.u64, probe: nat, c: nat, at: set<nat>)
    requires T.Inv(q) && Within(q.recs, c, at)
    ensures T.Inv(T.Expire(q, now, probe).0) && Within(T.Expire(q, now, probe).0.recs, c, at)
  {
    T.ExpireExact(q, now, probe);
    hide T.Expire, T.Due;
    var recs := T.Expire(q, now, probe).0.recs;
    forall a | a in recs && OfCall(recs[a].cb, c) ensures a in at {
      assert recs[a] == T.Outcome(q.recs[a], T.Due(q, now, a), now);
    }
  }

  predicate Stray(hit: E.Mask, events: E.Mask) {
    (E.Has(hit, E.READ) && !E.Has(events, E.READ)) || (E.Has(hit, E.WRITE) && !E.Has(events, E.WRITE))
  }

  // ---------------------------------------------------------------- the manager

  /** An `IOManager` with its timers: the classes it derives from are members here. */
  class Manager {
    const tm: TimeManager
    const io: IOManager
    /** Where the allocator will put new timers. */
    var free: seq<nat>

    ghost predicate Valid()
      reads this, tm, tm.all.Values, io, io.fdContexts, io.sched`fibers
    {
      && tm.Valid() && T.Inv(tm.Q()) && io.Valid()
      && (forall i :: 0 <= i < |free| ==> free[i] !in tm.all)
      && (forall i, j :: 0 <= i < j < |free| ==> free[i] != free[j])
    }

    constructor (tm: TimeManager, io: IOManager, free: seq<nat>)
      requires tm.Valid() && T.Inv(tm.Q()) && io.Valid()
      requires forall i :: 0 <= i < |free| ==> free[i] !in tm.all
      requires forall i, j :: 0 <= i < j < |free| ==> free[i] != free[j]
      ensures Valid() && this.tm == tm && this.io == io && this.free == free
    {
      this.tm, this.io, this.free := tm, io, free;
    }

    /** What every method keeps: timers and contexts stay, and those that come are new. */
    twostate predicate Grows()
      reads tm, io
    {
      && (forall a :: a in old(tm.all) ==> a in tm.all && tm.all[a] == old(tm.all[a]))
      && (forall a :: a in tm.all && a !in old(tm.all) ==> fresh(tm.all[a]))
      && old(io.fdContexts) <= io.fdContexts
      && (forall i :: |old(io.fdContexts)| <= i < |io.fdContexts| ==> fresh(io.fdContexts[i]))
    }

    lemma NextIsNew()
      requires Valid() && free != []
      ensures free[0] !in tm.Q().recs
    {}

    /** `addTimer`, or nothing if memory has run out. */
    method NewTimer(born: T.u64, ms: T.u64, cb: Callback, recurring: bool, c: nat, ghost at: set<nat>)
      returns (t: Timer?, ghost now: set<nat>)
      requires Valid() && Within(tm.Q().recs, c, at)
      modifies this`free, tm`timers, tm`tickled, tm`all
      ensures Valid() && Grows()
      ensures t == null <==> old(free) == []
      ensures t == null ==> tm.Q() == old(tm.Q())
      ensures t != null ==> tm.Manages(t) && t.addr == old(free)[0]
      ensures t != null ==> tm.Q() == T.Add(old(tm.Q()), t.addr, born, ms, cb, recurring).0
      ensures now == if t != null && OfCall(Some(cb), c) then at + {t.addr} else at
      ensures Within(tm.Q().recs, c, now)
    {
      hide T.Add, T.Inv, E.Inv, Within, OfCall, IOManager.Valid, TimeManager.Recs;
      t, now := null, at;
      if free != [] {
        var addr := free[0];
        now := if OfCall(Some(cb), c) then at + {addr} else at;
        NextIsNew();
        AddWithin(tm.Q(), addr, born, ms, cb, recurring, c, at);
        free := free[1..];
        var notify;
        t, notify := tm.AddTimer(addr, born, ms, cb, recurring);
      }
    }

    /** Due callbacks go to the queue, as the idle loop sends them there. */
    method Hand(now: T.u64, probe: nat, c: nat, ghost at: set<nat>)
      requires Valid() && Within(tm.Q().recs, c, at)
      modifies tm`timers, tm`prev, tm.all.Values, io.sched`fibers, io.sched`pipe
      ensures Valid() && Grows() && Within(tm.Q().recs, c, at)
    {
      hide T.Expire, T.Inv, E.Inv, Within, TimeManager.Recs, IOManager.Mirrors;
      ExpireWithin(tm.Q(), now, probe, c, at);
      var cbs := tm.ListExpiredCb(now, probe);
      if cbs != [] {
        var batch := new Option<Callback>[|cbs|](i requires 0 <= i < |cbs| => Some(cbs[i]));
        io.sched.ScheduleBatch(batch);
      }
    }

    method ActOnTimers(a: TimerAct, c: nat, ghost at: set<nat>)
      requires Valid() && Within(tm.Q().recs, c, at) && Foreign(OnTimers(a), c)
      modifies this`free, tm, tm.all.Values, io.sched`fibers, io.sched`pipe
      ensures Valid() && Grows() && Within(tm.Q().recs, c, at)
    {
      hide T.Cancel, T.Refresh, T.Reset, T.Inv, E.Inv, Within, TimeManager.Recs, IOManager.Valid;
      match a
      case Expires(now, probe) =>
        Hand(now, probe, c, at);
      case Arms(born, ms, cb, recurring) =>
        var _, _ := NewTimer(born, ms, cb, recurring, c, at);
      case Disarms(i) =>
        if i < |tm.timers| {
          DropTimer(tm.timers[i], c, at);
        }
      case Refreshes(i, now) =>
        if i < |tm.timers| {
          IsKnown(i);
          RefreshWithin(tm.Q(), tm.timers[i].addr, now, c, at);
          var _ := tm.Refresh(tm.timers[i], now);
        }
      case Resets(i, ms, fromNow, now) =>
        if i < |tm.timers| {
          IsKnown(i);
          ResetWithin(tm.Q(), tm.timers[i].addr, ms, fromNow, now, c, at);
          var _, _ := tm.Reset(tm.timers[i], ms, fromNow, now);
        }
    }

    lemma IsKnown(i: nat)
      requires Valid() && i < |tm.timers|
      ensures tm.Manages(tm.timers[i]) && tm.timers[i].addr in tm.Q().recs
    {}

    /** `timer->cancel()` */
    method DropTimer(t: Timer, c: nat, ghost at: set<nat>)
      requires Valid() && tm.Manages(t) && Within(tm.Q().recs, c, at)
      modifies tm`timers, t`cb
      ensures Valid() && Grows()
      ensures T.Inv(old(tm.Q())) && t.addr in old(tm.Q()).recs && tm.Q() == T.Cancel(old(tm.Q()), t.addr).0
      ensures Within(tm.Q().recs, c, at - {t.addr}) && Within(tm.Q().recs, c, at)
    {
      CancelWithin(tm.Q(), t.addr, c, at);
      hide T.Cancel, T.Inv, E.Inv, IOManager.Valid;
      var _ := tm.Cancel(t);
    }

    lemma IsEventTable()
      requires Valid()
      ensures io.Valid()
    {}

    /** A registration that would fail its assertion ends the process; it is not taken here. */
    method ActOnEvents(a: EventAct, granted: bool, self: S.Fiber)
      requires Valid()
      modifies io, io.fdContexts, io.sched`fibers, io.sched`pipe
      ensures Valid() && Grows()
    {
      hide T.Inv, E.Inv, TimeManager.Recs, IOManager.Valid, IOManager.Wakes, IOManager.Gives;
      IsEventTable();
      match a
      case Registers(fd, e, cb) =>
        if fd >= |io.fdContexts| || !E.Has(io.fdContexts[fd].events, e) {
          var _ := io.AddEvent(fd, e, Some(cb), self, granted);
        }
      case Drops(fd, e) => var _ := io.DelEvent(fd, e, granted);
      case Cancels(fd, e) => var _ := io.CancelEvent(fd, e, granted);
      case CancelsAll(fd) => var _ := io.CancelAll(fd, granted);
      case Dispatches(fd, reported) => Dispatch(fd, reported, granted);
    }

    /** The same for a dispatch: nothing that is not registered may be reported with what is. */
    method Dispatch(fd: nat, reported: E.Mask, granted: bool)
      requires Valid()
      modifies io, io.fdContexts, io.sched`fibers, io.sched`pipe
      ensures Valid() && Grows()
    {
      hide T.Inv, E.Inv, TimeManager.Recs, IOManager.Mirrors, IOManager.Valid, IOManager.Wakes;
      hide E.Has, E.Overlaps, E.RealEvents, E.Dispatch;
      if fd < |io.fdContexts| {
        var fdCtx := io.fdContexts[fd];
        var hit := IOManager.ReadReport(reported);
        CanDispatch(fd, reported, granted);
        if !granted || !E.Overlaps(fdCtx.events, hit) || !Stray(hit, fdCtx.events) {
          var _ := io.DispatchOne(fdCtx, reported, granted);
        }
      }
    }

    lemma CanDispatch(fd: nat, reported: E.Mask, granted: bool)
      requires Valid() && fd < |io.fdContexts|
      ensures io.Valid() && io.Known(io.fdContexts[fd]) && io.fdContexts[fd].fd == fd
      ensures var events, hit := io.fdContexts[fd].events, E.RealEvents(reported);
              granted && E.Overlaps(events, hit) && Stray(hit, events) <==> E.Dispatch(io.table, fd, reported, granted).Aborted?
    {
      hide T.Inv, E.Inv, TimeManager.Recs, E.Has, E.Overlaps, E.RealEvents, E.Dispatch;
      var fdCtx := io.fdContexts[fd];
      assert io.Same(fdCtx, io.table.ctxs[fd], fd);
      E.DispatchKeeps(io.table, fd, reported, granted);
    }

    /** A worker takes an entry of the queue. A closure of the call sets the flag and cancels the event,
        unless the flag is set. */
    method Take(i: nat, granted: bool, call: Call, info: TimerInfo)
      requires Valid() && info.cancelled in {0, ETIMEDOUT}
      modifies io, io.fdContexts, io.sched`fibers, io.sched`pipe, info
      ensures Valid() && Grows() && info.cancelled in {0, ETIMEDOUT}
    {
      hide T.Inv, E.Inv, TimeManager.Recs, IOManager.Mirrors, IOManager.Wakes;
      if i < |io.sched.fibers| {
        var cb := io.sched.fibers[i].cb;
        io.sched.fibers := io.sched.fibers[..i] + io.sched.fibers[i + 1..];
        if OfCall(cb, call.c) && info.cancelled == 0 {
          info.cancelled := ETIMEDOUT;
          var _ := io.CancelEvent(call.fd, call.ev, granted);
        }
      }
    }

    /** The direction has a waiter already. */
    predicate Taken(call: Call)
      reads io, io.fdContexts
    {
      call.fd < |io.fdContexts| && E.Has(io.fdContexts[call.fd].events, call.ev)
    }

    /** `addEvent` for the running fiber; `taken` if its first assertion fails. */
    method Register(call: Call, self: S.Fiber, granted: bool) returns (taken: bool, rt: int)
      requires Valid() && self.state == F.EXEC
      modifies io, io.fdContexts
      ensures Valid() && Grows()
      ensures taken == old(Taken(call))
      ensures !taken ==> E.Inv(old(io.table)) && rt == (if granted then 0 else -1)
                         && E.AddEvent(old(io.table), call.fd, call.ev, FiberOf(self.id), granted).Done?
                         && io.table == E.AddEvent(old(io.table), call.fd, call.ev, FiberOf(self.id), granted).table
    {
      hide T.Inv, E.Inv, TimeManager.Recs, IOManager.Mirrors, E.AddEvent, E.Kept;
      taken, rt := Taken(call), 0;
      if !taken {
        E.AddEventKeeps(io.table, call.fd, call.ev, FiberOf(self.id), granted);
        rt := io.AddEvent(call.fd, call.ev, None, self, granted);
      }
    }

    /** The condition timer of the call, if it has a timeout; `full` if memory ran out. */
    method Arm(call: Call, k: nat, born: T.u64) returns (full: bool, t: Timer?, ghost at: set<nat>)
      requires Valid() && Within(tm.Q().recs, call.c, {})
      modifies this`free, tm`timers, tm`tickled, tm`all
      ensures Valid() && Grows()
      ensures full <==> call.to.Some? && old(free) == []
      ensures !full ==> (t != null <==> call.to.Some?) && Within(tm.Q().recs, call.c, at)
      ensures t != null ==> tm.Manages(t) && old(free) != [] && t.addr == old(free)[0] && at == {t.addr}
      ensures t != null ==> tm.Q() == T.Add(old(tm.Q()), t.addr, born, call.to.value, Timeout(call.c, k), false).0
      ensures t == null ==> at == {} && tm.Q() == old(tm.Q())
    {
      hide T.Inv, E.Inv, Within, IOManager.Valid, TimeManager.Valid, T.Add;
      full, t, at := false, null, {};
      if call.to.Some? {
        t, at := NewTimer(born, call.to.value, Timeout(call.c, k), false, call.c, {});
        full := t == null;
      }
    }

    /** `if (timer) timer->cancel()` */
    method Disarm(t: Timer?, c: nat, ghost at: set<nat>)
      requires Valid() && Within(tm.Q().recs, c, at) && (if t == null then at == {} else tm.Manages(t) && at == {t.addr})
      modifies tm`timers, if t == null then {} else {t}
      ensures Valid() && Grows() && Within(tm.Q().recs, c, {})
    {
      hide T.Inv, E.Inv, Within, IOManager.Valid, TimeManager.Valid, TimeManager.Recs;
      if t != null {
        DropTimer(t, c, at);
        assert at - {t.addr} == {};
      }
    }

    /** From `YieldToHold` on: the timer is cancelled before the flag is read. */
    method Wait(others: seq<Act>, call: Call, info: TimerInfo, self: S.Fiber, t: Timer?, ghost at: set<nat>)
      returns (flag: bool)
      requires Valid() && Within(tm.Q().recs, call.c, at) && info.cancelled in {0, ETIMEDOUT}
      requires if t == null then at == {} else tm.Manages(t) && at == {t.addr}
      requires forall i :: 0 <= i < |others| ==> Foreign(others[i], call.c)
      modifies this`free, tm, tm.all.Values, io, io.fdContexts, io.sched`fibers, io.sched`pipe, info
      ensures Valid() && Grows() && Within(tm.Q().recs, call.c, {})
      ensures info.cancelled == if flag then ETIMEDOUT else 0
    {
      hide T.Inv, E.Inv, Within, Valid, TimeManager.Q;
      Meanwhile(others, call, info, self, at);
      Disarm(t, call.c, at);
      flag := info.cancelled != 0;
    }

    /** What happens until the fiber is back. */
    method Meanwhile(others: seq<Act>, call: Call, info: TimerInfo, self: S.Fiber, ghost at: set<nat>)
      requires Valid() && Within(tm.Q().recs, call.c, at) && info.cancelled in {0, ETIMEDOUT}
      requires forall i :: 0 <= i < |others| ==> Foreign(others[i], call.c)
      modifies this`free, tm, tm.all.Values, io, io.fdContexts, io.sched`fibers, io.sched`pipe, info
      ensures Valid() && Grows() && Within(tm.Q().recs, call.c, at) && info.cancelled in {0, ETIMEDOUT}
    {
      hide T.Inv, E.Inv, Within, TimeManager.Recs, IOManager.Valid, TimeManager.Valid;
      for n := 0 to |others|
        invariant Valid() && Grows() && Within(tm.Q().recs, call.c, at) && info.cancelled in {0, ETIMEDOUT}
      {
        match others[n]
        case OnTimers(a) => ActOnTimers(a, call.c, at);
        case OnEvents(a, granted) => ActOnEvents(a, granted, self);
        case Takes(i, granted) => Take(i, granted, call, info);
      }
    }
  }

  // ---------------------------------------------------------------- the call

  /** The system call, again and again after EINTR; `None` if it is still at that. */
  method CallUntilAnswered(answers: seq<Sys>) returns (x: Option<Sys>)
    ensures x == First(answers)
  {
    var n := 0;
    assert answers[0..] == answers;
    while n < |answers| && Interrupted(answers[n])
      invariant n <= |answers| && First(answers[n..]) == First(answers)
    {
      assert answers[n..][1..] == answers[n + 1..];
      n := n + 1;
    }
    x := if n < |answers| then Some(answers[n]) else None;
  }

  /** How a turn ends: the call returns, or goes to `retry`, or is still at EINTR, or an assertion failed or
      memory ran out. */
  datatype End = Out(r: IoResult) | Retry | AtEintr | Broken

  ghost predicate Ready(m: Manager, call: Call, self: S.Fiber)
    reads m, m.tm, m.tm.all.Values, m.io, m.io.fdContexts, m.io.sched`fibers, self
  {
    m.Valid() && Within(m.tm.Q().recs, call.c, {}) && self.state == F.EXEC
  }

  /** From EAGAIN on. */
  method DoWait(m: Manager, call: Call, k: nat, info: TimerInfo, self: S.Fiber, t: Turn)
    returns (end: End, met: Round, ret: Sys)
    requires Ready(m, call, self) && info.cancelled == 0
    requires Foreigners(t, call.c)
    modifies m`free, m.tm, m.tm.all.Values, m.io, m.io.fdContexts, m.io.sched`fibers, m.io.sched`pipe, info
    ensures m.Grows() && met.again && (!end.Broken? ==> met.ok == t.granted)
    ensures end.Broken? <==> (call.to.Some? && old(m.free) == []) || old(m.Taken(call))
    ensures !end.Broken? ==> Ready(m, call, self) && end != AtEintr
    ensures !end.Broken? ==> (end == Out(Refused) <==> !met.ok) && (end == Retry <==> met.ok && !met.flag)
    ensures end == Out(TimedOut) <==> !end.Broken? && met.ok && met.flag
    ensures end == Out(TimedOut) ==> ret == Sys(-1, ETIMEDOUT)
    ensures end == Retry ==> info.cancelled == 0
    ensures end == Out(Refused) ==> ret.n == -1
  {
    hide T.Inv, E.Inv, E.AddEvent, T.Add, Within, Manager.Valid, Manager.Taken, TimeManager.Q;
    ret := Sys(-1, EAGAIN);
    met := Round(true, false, false);
    var full, timer, at := m.Arm(call, k, t.born);
    if full {
      return Broken, met, ret;
    }
    var taken, rt := m.Register(call, self, t.granted);
    if taken {
      return Broken, met, ret;
    }
    if rt != 0 {
      m.Disarm(timer, call.c, at);
      return Out(Refused), met, ret;
    }
    var flag := m.Wait(t.others, call, info, self, timer, at);
    met := Round(true, true, flag);
    if flag {
      return Out(TimedOut), met, Sys(-1, info.cancelled);
    }
    return Retry, met, ret;
  }

  /** One turn from `retry`. */
  method DoRound(m: Manager, call: Call, k: nat, info: TimerInfo, self: S.Fiber, t: Turn)
    returns (end: End, met: Round, ret: Sys)
    requires Ready(m, call, self) && info.cancelled == 0
    requires Foreigners(t, call.c)
    modifies m`free, m.tm, m.tm.all.Values, m.io, m.io.fdContexts, m.io.sched`fibers, m.io.sched`pipe, info
    ensures m.Grows() && (!end.Broken? ==> Ready(m, call, self))
    ensures end == AtEintr ==> First(t.answers) == None
    ensures !end.Broken? && end != AtEintr ==> Met(met, t) && (end.Out? <==> Ends(met)) && (end.Out? ==> end.r == RoundResult(met))
    ensures end.Broken? <==> First(t.answers).Some? && Blocked(First(t.answers).value)
                             && ((call.to.Some? && old(m.free) == []) || old(m.Taken(call)))
    ensures end == Out(Returned) ==> Some(ret) == First(t.answers)
    ensures end == Out(TimedOut) ==> ret == Sys(-1, ETIMEDOUT)
    ensures end == Out(Refused) ==> ret.n == -1
    ensures end == Retry ==> info.cancelled == 0
  {
    hide T.Inv, E.Inv, Within, Manager.Valid, TimeManager.Q, First;
    var x := CallUntilAnswered(t.answers);
    if x.None? {
      return AtEintr, Round(false, false, false), Sys(-1, EINTR);
    }
    if Blocked(x.value) {
      end, met, ret := DoWait(m, call, k, info, self, t);
      return;
    }
    return Out(Returned), Round(false, false, false), x.value;
  }

  /** The turn came out as its inputs say. */
  predicate Met(r: Round, t: Turn) {
    First(t.answers).Some? && r.again == Blocked(First(t.answers).value) && (r.again ==> r.ok == t.granted)
  }

  /** The turns taken came out as their inputs say, and the call returns from the first that ends it: with
      the answer of the system call, with ETIMEDOUT, or with -1. */
  predicate Told(turns: seq<Turn>, met: seq<Round>, r: Option<IoResult>, ret: Sys) {
    && |met| <= |turns| && (forall n :: 0 <= n < |met| ==> Met(met[n], turns[n]))
    && (forall n :: 0 <= n < |met| ==> (Ends(met[n]) <==> r.Some? && n == |met| - 1))
    && (r.None? ==> |met| == |turns| || First(turns[|met|].answers).None?)
    && (r.Some? ==>
          && met != [] && r.value == RoundResult(met[|met| - 1])
          && match r.value
             case Returned => First(turns[|met| - 1].answers) == Some(ret)
             case TimedOut => ret == Sys(-1, ETIMEDOUT)
             case Refused => ret.n == -1)
  }

  /** What `do_io` comes to: the plain system call, EBADF, the end of the process, or the wait path (`None`:
      still on it when the turns are used up). */
  datatype Outcome = Plain | BadFd | Died | Waited(r: Option<IoResult>)

  /** The loop through `retry`. */
  method DoRounds(m: Manager, call: Call, info: TimerInfo, self: S.Fiber, turns: seq<Turn>)
    returns (out: Outcome, met: seq<Round>, ret: Sys)
    requires Ready(m, call, self) && info.cancelled == 0
    requires forall n :: 0 <= n < |turns| ==> Foreigners(turns[n], call.c)
    modifies m`free, m.tm, m.tm.all.Values, m.io, m.io.fdContexts, m.io.sched`fibers, m.io.sched`pipe, info
    ensures out.Died? || out.Waited?
    ensures out.Waited? ==> Ready(m, call, self) && Told(turns, met, out.r, ret)
  {
    hide T.Inv, E.Inv, Manager.Valid, TimeManager.Q, First, Within, Ends, RoundResult, Met;
    met, ret := [], Sys(-1, EAGAIN);
    for n := 0 to |turns|
      invariant m.Grows() && Ready(m, call, self) && info.cancelled == 0
      invariant |met| == n && forall j :: 0 <= j < n ==> Met(met[j], turns[j]) && !Ends(met[j])
    {
      var end, round;
      end, round, ret := DoRound(m, call, n, info, self, turns[n]);
      match end
      case Broken => return Died, met, ret;
      case AtEintr => return Waited(None), met, ret;
      case Out(r) => return Waited(Some(r)), met + [round], ret;
      case Retry => met := met + [round];
    }
    return Waited(None), met, ret;
  }

  /** The early returns are taken exactly for a thread without hooks, an unknown or closed descriptor, one
      that is no socket, and one that the caller made non-blocking. On the wait path the steps are the
      program's. Whatever the others do, when the call returns none of its timers is armed. */
  method DoIo(m: Manager, hooked: bool, ctx: Option<FF.Ctx>, call: Call, self: S.Fiber, plain: Sys, turns: seq<Turn>)
    returns (out: Outcome, met: seq<Round>, ret: Sys)
    requires Ready(m, call, self)
    requires forall n :: 0 <= n < |turns| ==> Foreigners(turns[n], call.c)
    modifies m`free, m.tm, m.tm.all.Values, m.io, m.io.fdContexts, m.io.sched`fibers, m.io.sched`pipe
    ensures out.Waited? || out.Died? <==> hooked && ctx.Some? && FF.TakesWaitPath(ctx.value)
    ensures out.BadFd? <==> hooked && ctx.Some? && ctx.value.isClosed
    ensures out.Plain? || out.BadFd? ==> m.tm.Q() == old(m.tm.Q()) && m.io.table == old(m.io.table)
    ensures out.Plain? ==> ret == plain
    ensures out.BadFd? ==> ret == Sys(-1, EBADF)
    ensures !out.Died? ==> m.Valid() && NoneArmed(m.tm.Q(), call.c)
    ensures out.Waited? ==> Told(turns, met, out.r, ret)
    ensures out.Waited? ==> Follows(call.c, F.IoTry(call.c), PathOf(met), if out.r.Some? then F.Code else F.IoTry(call.c))
  {
    hide T.Inv, E.Inv, Manager.Valid, TimeManager.Q, First, Within;
    Nothing(m, call, self);
    if !hooked || ctx.None? {
      return Plain, [], plain;
    }
    if ctx.value.isClosed {
      return BadFd, [], Sys(-1, EBADF);
    }
    if !ctx.value.isSocket || ctx.value.userNonblock {
      return Plain, [], plain;
    }
    var info := new TimerInfo();
    out, met, ret := DoRounds(m, call, info, self, turns);
    if out.Waited? {
      PathFollows(call.c, met);
      Nothing(m, call, self);
    }
  }

  lemma Nothing(m: Manager, call: Call, self: S.Fiber)
    requires Ready(m, call, self)
    ensures NoneArmed(m.tm.Q(), call.c)
  {
    WithinNothing(m.tm.Q(), call.c);
  }
}
