/** What the runtime's invariant says to its users. */
module RuntimeTheorems {
  import opened Common
  import opened Sums
  import opened Fleet
  import opened Tokens
  import opened TimerWeights
  import opened Runtime
  import opened RuntimeSteps
  import opened RuntimeFibers
  import opened RuntimeRuns
  import opened RuntimeShapes
  import T = TimerSpec
  import E = EventSpec
  import QS = QueueSpec

  // ---------------------------------------------------------------- one wake-up per waiting fiber

  /** Over every run and every interleaving: a fiber that waits is held in exactly one place; a fiber in
      the middle of its code is on exactly one worker and, until it has arranged its own wake-up, held
      nowhere; a finished fiber is held nowhere and no worker can enter it again. */
  lemma OneWakeUp(workers: nat, clock: T.u64, acts: seq<Action>, f: FiberId)
    ensures var p := After(workers, clock, acts).p; var w := p.fl.workers;
            && (f < |p.fl.fibers| && Waits(p.fl.fibers[f].pc) ==> Held(p, f) == 1)
            && (f < |p.fl.fibers| && !Waits(p.fl.fibers[f].pc) ==> Held(p, f) == 0)
            && (f < |p.fl.fibers| && OnCpu(p.fl.fibers[f].pc) ==>
                  exists i :: 0 <= i < |w| && RunsFiber(w[i], f) && forall j :: 0 <= j < |w| && j != i ==> !Refers(w[j], f))
            && (f < |p.fl.fibers| && p.fl.fibers[f].pc.Finished? ==>
                  forall i :: 0 <= i < |w| && w[i].pc.Counted? ==> w[i].pc.f != f)
  {
    var p := After(workers, clock, acts).p;
    var w := p.fl.workers;
    assert Held(p, f) == Owed(p.fl.fibers, f);
    if f < |p.fl.fibers| && OnCpu(p.fl.fibers[f].pc) {
      var i :| 0 <= i < |w| && RunsFiber(w[i], f);
      RunningIsMine(p.fl, i, f);
    }
    forall i | 0 <= i < |w| && w[i].pc.Counted? && f < |p.fl.fibers| && w[i].pc.f == f
      ensures !p.fl.fibers[f].pc.Finished?
    {
      assert WorkerFits(w[i], p.fl.fibers);
    }
  }

  /** "Held in one place" spelled out: exactly one of the five kinds of places holds it, once. */
  lemma ExactlyOnePlace(workers: nat, clock: T.u64, acts: seq<Action>, f: FiberId)
    requires var p := After(workers, clock, acts).p; f < |p.fl.fibers| && Waits(p.fl.fibers[f].pc)
    ensures var p := After(workers, clock, acts).p;
            var counts := [Sum(p.queue, InEntry(f)), InSlots(p.table, f), Armed(p.timers, Wakes(f)),
                           Sum(p.fl.workers, InWorker(f)), Sum(p.fl.fibers, InFiber(f))];
            exists k :: 0 <= k < 5 && counts[k] == 1 && forall j :: 0 <= j < 5 && j != k ==> counts[j] == 0
  {
    assert TokenInv(After(workers, clock, acts).p);
    hide SysInv, TokenInv, Waits;
    OnePlace(After(workers, clock, acts).p, f);
  }

  lemma OnePlace(p: Places, f: FiberId)
    requires TokenInv(p) && f < |p.fl.fibers| && Waits(p.fl.fibers[f].pc)
    ensures var counts := [Sum(p.queue, InEntry(f)), InSlots(p.table, f), Armed(p.timers, Wakes(f)),
                           Sum(p.fl.workers, InWorker(f)), Sum(p.fl.fibers, InFiber(f))];
            exists k :: 0 <= k < 5 && counts[k] == 1 && forall j :: 0 <= j < 5 && j != k ==> counts[j] == 0
  {
    assert Held(p, f) == Owed(p.fl.fibers, f) == 1;
    PartsNonNegative(p, f);
    OneOfFive(Sum(p.queue, InEntry(f)), InSlots(p.table, f), Armed(p.timers, Wakes(f)),
              Sum(p.fl.workers, InWorker(f)), Sum(p.fl.fibers, InFiber(f)));
  }

  lemma OneOfFive(a: int, b: int, c: int, d: int, e: int)
    requires a >= 0 && b >= 0 && c >= 0 && d >= 0 && e >= 0 && a + b + c + d + e == 1
    ensures var counts := [a, b, c, d, e];
            exists k :: 0 <= k < 5 && counts[k] == 1 && forall j :: 0 <= j < 5 && j != k ==> counts[j] == 0
  {
    var counts := [a, b, c, d, e];
    var k := if a == 1 then 0 else if b == 1 then 1 else if c == 1 then 2 else if d == 1 then 3 else 4;
    assert counts[k] == 1;
  }

  // ---------------------------------------------------------------- the run loop's assertions

  /** At every point of every run where `run` or a yield asserts something about a fiber's state, it
      holds; at every loop head `cb_fiber` is null or INIT; and the two counters are exactly the workers
      inside the corresponding brackets. */
  lemma AssertionsHold(workers: nat, clock: T.u64, acts: seq<Action>, i: nat)
    requires i < |After(workers, clock, acts).p.fl.workers|
    ensures var fl := After(workers, clock, acts).p.fl; var w := fl.workers[i];
            && (w.pc.Counted? ==> w.pc.f < |fl.fibers| && fl.fibers[w.pc.f].state in {INIT, HOLD})
            && ((w.pc.Took? || w.pc.Head?) && w.cbFiber.Some? ==>
                  w.cbFiber.value < |fl.fibers| && fl.fibers[w.cbFiber.value].state == INIT)
            && (w.pc.Settle? ==> w.pc.f < |fl.fibers| && fl.fibers[w.pc.f].state in {EXEC, TERM, EXCEPT})
            && (w.pc.Inside? ==> w.pc.f < |fl.fibers| && fl.fibers[w.pc.f].state == EXEC)
            && fl.active == Sum(fl.workers, IsActive())
            && fl.idle == Sum(fl.workers, IsIdle())
  {
    var fl := After(workers, clock, acts).p.fl;
    assert WorkerFits(fl.workers[i], fl.fibers);
    forall f | 0 <= f < |fl.fibers| ensures StateFits(fl.fibers[f]) {}
  }

  // ---------------------------------------------------------------- the timeout protocol of do_io

  /** ETIMEDOUT is honest: it is reported only after a timer armed by the same call fired, no sooner
      than its deadline (arming time plus timeout, in 64 bits; a clock rollover voids deadlines). */
  lemma TimeoutsAreHonest(workers: nat, clock: T.u64, acts: seq<Action>, c: nat)
    requires c < |After(workers, clock, acts).calls|
    ensures var s := After(workers, clock, acts); var call := s.calls[c];
            call.result == Some(TimedOut) ==>
              exists k :: 0 <= k < |call.arms| && call.cancelled == Some(k) && call.to.Some?
                          && (s.rolled || call.arms[k] + call.to.value <= s.clock
                              || call.arms[k] + call.to.value >= T.U64)
  {
    var s := After(workers, clock, acts);
    var call := s.calls[c];
    assert CallOk(call, s.clock, s.rolled);
    if call.result == Some(TimedOut) {
      assert Due(call, call.cancelled.value, s.clock, s.rolled);
    }
  }

  /** A call that returned has left nothing behind: no timer of it is armed, its fiber is not in it any
      more, and a fiber back in user code sits in no event slot and no queue. */
  lemma ReturnsAreClean(workers: nat, clock: T.u64, acts: seq<Action>, c: nat)
    requires c < |After(workers, clock, acts).calls|
    ensures Clean(After(workers, clock, acts), c)
  {
    hide SysInv, Clean;
    LeavesNothing(After(workers, clock, acts), c);
  }

  ghost predicate Clean(s: State, c: nat)
    requires c < |s.calls|
  {
    var call := s.calls[c];
    && call.fiber < |s.p.fl.fibers|
    && (call.result.Some? ==>
          && (forall a, k :: a in s.p.timers.armed && a in s.p.timers.recs ==> s.p.timers.recs[a].cb != Some(Timeout(c, k)))
          && InCall(s.p.fl.fibers[call.fiber].pc) != Some(c))
    && (s.p.fl.fibers[call.fiber].pc.Code? ==>
          && E.Waiting(s.p.table, FiberOf(call.fiber)) == 0
          && (forall n :: 0 <= n < |s.p.queue| ==> s.p.queue[n].content != FiberOf(call.fiber)))
  }

  lemma LeavesNothing(s: State, c: nat)
    requires SysInv(s) && c < |s.calls|
    ensures Clean(s, c)
  {
    var f := s.calls[c].fiber;
    assert Links(s.calls, s.p.fl.fibers) && TokenInv(s.p);
    forall a, k | a in s.p.timers.recs && s.calls[c].result.Some? ensures s.p.timers.recs[a].cb != Some(Timeout(c, k)) {
      assert TimeoutTimer(s.calls, s.p.fl.fibers, a, s.p.timers.recs[a]);
    }
    hide SysInv, T.Inv, E.Inv, E.Waiting, TimerLinks;
    if s.p.fl.fibers[f].pc.Code? {
      PartsNonNegative(s.p, f);
      assert Held(s.p, f) == Owed(s.p.fl.fibers, f);
      WaitingNonNegative(s.p.table, FiberOf(f));
      WaitingNonNegative(s.p.table, CallbackOf(Wake(f)));
      forall n | 0 <= n < |s.p.queue| ensures s.p.queue[n].content != FiberOf(f) {
        SumAtLeast(s.p.queue, n, InEntry(f));
      }
    }
  }

  /** What never changes about a call. */
  predicate SameCall(k: Call, k': Call) {
    k'.fiber == k.fiber && k'.fd == k.fd && k'.ev == k.ev && k'.to == k.to
  }

  /** No action but the call's own return gives it a result, and no action but a closure of its own sets
      its flag. */
  lemma ResultsAreOwn(s: State, a: Action, c: nat)
    requires SysInv(s) && Can(s, a) && c < |s.calls|
    ensures var s' := Do(s, a);
            && c < |s'.calls| && SameCall(s.calls[c], s'.calls[c])
            && (s'.calls[c].result != s.calls[c].result ==>
                  a.ByFiber? && AtCall(s, a.i) && MyCall(s, a.i) == c && s.calls[c].result.None?)
            && (s'.calls[c].cancelled != s.calls[c].cancelled ==>
                  a.ByFiber? && CanBeginTimeout(s, a.i) && MyPc(s, a.i).cb.call == c && s.calls[c].result.None?)
  {
    assert T.Inv(s.p.timers);
    hide SysInv, T.Inv, DoWorker, DoFiber, DoUser, CanWorker, CanFiber, CanUser, WorkerAfter, Touched, WorkersQueue, WorkersTable,
         WorkersTimers, Stopping, InFlight;
    match a {
      case ByWorker(i, w) => WorkerShape(s, i, w);
      case ByFiber(i, f) => FibersOwnCalls(s, i, f, c);
      case ByUser(who, u) => UserShape(s, u);
      case Tick(_) =>
      case Stop =>
    }
  }

  /** What the fiber on worker `i` does to call `c`. */
  ghost predicate OwnChanges(s: State, i: nat, c: nat, s': State) {
    && c < |s.calls| && c < |s'.calls| && SameCall(s.calls[c], s'.calls[c])
    && (s'.calls[c].result != s.calls[c].result ==>
          AtCall(s, i) && MyCall(s, i) == c && s.calls[c].result.None?)
    && (s'.calls[c].cancelled != s.calls[c].cancelled ==>
          CanBeginTimeout(s, i) && MyPc(s, i).cb.call == c && SetsFlag(s, i))
  }

  lemma FibersOwnCalls(s: State, i: nat, a: FiberAct, c: nat)
    requires SysInv(s) && CanFiber(s, i, a) && c < |s.calls|
    ensures OwnChanges(s, i, c, DoFiber(s, i, a))
  {
    assert T.Inv(s.p.timers) && E.Inv(s.p.table);
    FiberShape(s, i, a);
    ActsFromWithin(s, i, a);
    if InCall(MyPc(s, i)).Some? {
      OwnCall(s, i);
    }
    CallsChange(s, i, a, c);
    hide SysInv, T.Inv, E.Inv, CanFiber, DoFiber, NextPc, FleetAfter, CallsAfter, QueueAfter, TableAfter, TimersAfter, Cancelled;
  }

  lemma CallsChange(s: State, i: nat, a: FiberAct, c: nat)
    requires CanFiber(s, i, a) && c < |s.calls| && Running(s, i)
    requires InCall(MyPc(s, i)).Some? ==> AtCall(s, i) && s.calls[MyCall(s, i)].result.None?
    ensures OwnChanges(s, i, c, s.(calls := CallsAfter(s, i, a)))
  {}

  lemma OwnCall(s: State, i: nat)
    requires SysInv(s) && Running(s, i) && InCall(MyPc(s, i)).Some?
    ensures AtCall(s, i) && s.calls[MyCall(s, i)].result.None?
  {
    RunningFits(s, i);
  }

  // ---------------------------------------------------------------- stopping

  /** Work that comes from a thread that is not a worker. */
  predicate FromOutside(a: Action) { a.ByUser? && a.who.None? }

  /** While the active count is zero, no fiber runs. */
  lemma NobodyRuns(s: State, i: nat)
    requires SysInv(s) && s.p.fl.active == 0 && i < |s.p.fl.workers|
    ensures !s.p.fl.workers[i].pc.Counted? && !s.p.fl.workers[i].pc.Inside? && !s.p.fl.workers[i].pc.Outside?
  {
    SumAtLeast(s.p.fl.workers, i, IsActive());
  }

  /** While nothing is pending, a dispatch turn does nothing. */
  lemma NothingToDispatch(t: E.Table, fd: nat, reported: E.Mask, granted: bool)
    requires E.Inv(t) && t.pending == 0
    ensures E.Dispatch(t, fd, reported, granted) == E.Done(t, false, [], [])
  {
    if fd < |t.ctxs| {
      forall x | x in t.ctxs ensures E.Bits()(x) >= 0 {}
      SumAtLeast(t.ctxs, fd, E.Bits());
      assert E.CtxOk(t.ctxs[fd], fd);
      assert E.BitsSet(t.ctxs[fd].events) == 0;
      NoBits(t.ctxs[fd].events);
    }
  }

  lemma NoBits(m: E.Mask)
    requires m == 0 || m == 1 || m == 4 || m == 5
    requires E.BitsSet(m) == 0
    ensures m == E.NONE
  {}

  /** Worker `i` moved to `w`, which carries nothing, and nothing else that `stopping` looks at changed. */
  lemma QuietMove(s: State, s': State, i: nat, w: Worker)
    requires Stopping(s) && !InFlight(s) && i < |s.p.fl.workers| && !Carrying(w)
    requires s'.p.fl.workers == s.p.fl.workers[i := w] && s'.p.fl.active == s.p.fl.active
    requires s'.p.queue == s.p.queue && s'.p.table.pending == s.p.table.pending
    requires s'.p.timers.armed == s.p.timers.armed && s'.autostop == s.autostop
    ensures Stopping(s') && !InFlight(s')
  {
    forall j | 0 <= j < |s'.p.fl.workers| ensures !Carrying(s'.p.fl.workers[j]) {
      assert !Carrying(s.p.fl.workers[j]);
    }
  }

  lemma ExpireNothing(q: T.Queue, now: T.u64, probe: nat)
    requires T.Inv(q) && q.armed == []
    ensures T.Expire(q, now, probe) == (q, [])
  {}

  lemma QuietDispatch(s: State, i: nat, granted: bool)
    requires SysInv(s) && CanDispatch(s, i, granted) && Stopping(s) && !InFlight(s)
    ensures Stopping(DoDispatch(s, i, granted)) && !InFlight(DoDispatch(s, i, granted))
  {
    var ev := PcAt(s, i).evs[0];
    NothingToDispatch(s.p.table, ev.0, ev.1, granted);
    assert s.p.queue + Unpinned([]) == [];
    hide E.Dispatch, SysInv, InFlight;
    var s' := DoDispatch(s, i, granted);
    QuietMove(s, s', i, s'.p.fl.workers[i]);
  }

  lemma QuietWait(s: State, i: nat, now: T.u64, probe: nat, evs: seq<(nat, E.Mask)>)
    requires SysInv(s) && CanWait(s, i, now) && Stopping(s) && !InFlight(s)
    ensures var s' := DoWait(s, i, now, probe, evs); Stopping(s') && !InFlight(s')
  {
    ExpireNothing(s.p.timers, now, probe);
    assert T.Inv(s.p.timers);
    hide T.Expire, T.Inv, SysInv, InFlight;
    var s' := DoWait(s, i, now, probe, evs);
    QuietMove(s, s', i, s'.p.fl.workers[i]);
  }

  lemma QuietInIdle(s: State, i: nat, a: WorkerAct)
    requires SysInv(s) && CanWorker(s, i, a) && Stopping(s) && !InFlight(s) && InIdle(a)
    ensures Stopping(DoWorker(s, i, a)) && !InFlight(DoWorker(s, i, a))
  {
    assert T.Inv(s.p.timers);
    assert !Carrying(s.p.fl.workers[i]);
    hide SysInv, InFlight, DoWait, DoDispatch, E.Dispatch, T.Inv, Stopping, DoAskStop, DoScheduleExpired, MoveWorker;
    if a.DispatchOne? {
      QuietDispatch(s, i, a.granted);
    } else if a.Wait? {
      QuietWait(s, i, a.now, a.probe, a.evs);
    } else {
      QuietMoves(s, i, a);
    }
  }

  lemma QuietMoves(s: State, i: nat, a: WorkerAct)
    requires T.Inv(s.p.timers) && E.Inv(s.p.table) && CanWorker(s, i, a) && Stopping(s) && !InFlight(s)
    requires a.AskStop? || a.ScheduleExpired? || a.LeaveWait? || a.LeaveIdle?
    ensures Stopping(DoWorker(s, i, a)) && !InFlight(DoWorker(s, i, a))
  {
    assert T.Inv(s.p.timers);
    assert !Carrying(s.p.fl.workers[i]);
    hide SysInv, InFlight, T.Inv, E.Inv;
    var s' := DoWorker(s, i, a);
    QuietMove(s, s', i, s'.p.fl.workers[i]);
  }

  lemma QuietInRun(s: State, i: nat, a: WorkerAct)
    requires SysInv(s) && CanWorker(s, i, a) && Stopping(s) && !InFlight(s) && !InIdle(a)
    ensures Stopping(DoWorker(s, i, a)) && !InFlight(DoWorker(s, i, a))
  {
    NobodyRuns(s, i);
    assert !Carrying(s.p.fl.workers[i]);
    assert T.Inv(s.p.timers);
    hide SysInv, InFlight;
    var s' := DoWorker(s, i, a);
    QuietMove(s, s', i, s'.p.fl.workers[i]);
  }

  /** Stopping is stable exactly when nothing is in flight: then it holds after every action that does
      not come from outside ... */
  lemma StopIsStable(s: State, a: Action)
    requires SysInv(s) && Can(s, a) && Stopping(s) && !InFlight(s) && !FromOutside(a)
    ensures Stopping(Do(s, a)) && !InFlight(Do(s, a))
  {
    match a
    case ByWorker(i, w) => if InIdle(w) { QuietInIdle(s, i, w); } else { QuietInRun(s, i, w); }
    case ByFiber(i, f) =>
      assert Running(s, i);
      NobodyRuns(s, i);
      assert false;
    case ByUser(who, u) =>
      NobodyRuns(s, who.value);
      assert false;
    case Tick(t) =>
      forall j | 0 <= j < |s.p.fl.workers| ensures !Carrying(s.p.fl.workers[j]) {}
    case Stop =>
      forall j | 0 <= j < |s.p.fl.workers| ensures !Carrying(s.p.fl.workers[j]) {}
  }

  /** No action of the run comes from outside. */
  predicate FromWithin(acts: seq<Action>) {
    forall n :: 0 <= n < |acts| ==> !FromOutside(acts[n])
  }

  /** ... and hence in every later state of a run without submissions from outside ... */
  lemma {:induction false} StopIsStableOverRuns(s: State, acts: seq<Action>)
    requires SysInv(s) && Stopping(s) && !InFlight(s) && FromWithin(acts)
    ensures Stopping(Run(s, acts)) && !InFlight(Run(s, acts))
    decreases |acts|
  {
    assert T.Inv(s.p.timers) && E.Inv(s.p.table);
    hide SysInv, Do, Can, Stopping, InFlight;
    if acts != [] {
      assert forall n :: 0 <= n < |acts[1..]| ==> acts[1..][n] == acts[n + 1];
      if Can(s, acts[0]) {
        DoKeeps(s, acts[0]);
        StopIsStable(s, acts[0]);
        StopIsStableOverRuns(Do(s, acts[0]), acts[1..]);
      } else {
        StopIsStableOverRuns(s, acts[1..]);
      }
    }
  }

  /** ... and otherwise one or two actions of the worker that carries the work undo it. */
  lemma InFlightUndoesStop(s: State) returns (acts: seq<Action>)
    requires SysInv(s) && Stopping(s) && InFlight(s)
    ensures forall n :: 0 <= n < |acts| ==> acts[n].ByWorker?
    ensures !Stopping(Run(s, acts))
  {
    var i :| 0 <= i < |s.p.fl.workers| && Carrying(s.p.fl.workers[i]);
    var w := s.p.fl.workers[i];
    assert WorkerFits(w, s.p.fl.fibers);
    if w.pc.Took? && w.pc.e.content.CallbackOf? {
      acts := [ByWorker(i, Load), ByWorker(i, Count)];
      LoadThenCount(s, i);
    } else if w.pc.IdleGot? {
      acts := [ByWorker(i, ScheduleExpired)];
      ScheduleStarts(s, i);
    } else {
      acts := [ByWorker(i, Count)];
      CountStarts(s, i);
    }
  }

  lemma ScheduleStarts(s: State, i: nat)
    requires SysInv(s) && CanScheduleExpired(s, i) && PcAt(s, i).cbs != []
    ensures !Stopping(Run(s, [ByWorker(i, ScheduleExpired)]))
  {
    UnpinnedAt(Calls(PcAt(s, i).cbs));
    OneAction(s, ByWorker(i, ScheduleExpired));
    hide SysInv;
  }

  lemma LoadThenCount(s: State, i: nat)
    requires SysInv(s) && CanLoad(s, i) && s.p.fl.active == 0
    ensures !Stopping(Run(s, [ByWorker(i, Load), ByWorker(i, Count)]))
  {
    var acts := [ByWorker(i, Load), ByWorker(i, Count)];
    DoKeeps(s, acts[0]);
    assert acts[1..] == [ByWorker(i, Count)];
    assert Run(s, acts) == Run(DoLoad(s, i), [ByWorker(i, Count)]);
    hide SysInv, Run;
    CountStarts(DoLoad(s, i), i);
  }

  lemma OneAction(s: State, a: Action)
    requires SysInv(s) && Can(s, a)
    ensures SysInv(Do(s, a)) && Run(s, [a]) == Do(s, a)
  {
    DoKeeps(s, a);
    assert [a][1..] == [];
  }

  lemma CountStarts(s: State, i: nat)
    requires SysInv(s) && CanCount(s, i) && s.p.fl.active == 0
    ensures !Stopping(Run(s, [ByWorker(i, Count)]))
  {
    OneAction(s, ByWorker(i, Count));
  }

  /** A worker was told to stop only when the manager was quiet, unless the run was hasty or late; and a
      worker leaves only after it was told. */
  ghost predicate StopInv(s: State) {
    && (!s.hasty && !s.late && (exists i :: 0 <= i < |s.p.fl.workers| && s.p.fl.workers[i].idleDone) ==>
          Stopping(s) && !InFlight(s))
    && (forall i :: 0 <= i < |s.p.fl.workers| && s.p.fl.workers[i].pc.Exited? ==> s.p.fl.workers[i].idleDone)
  }

  /** What an action can do to the flags of the workers. */
  lemma FlagsOfWorkers(s: State, a: Action)
    requires T.Inv(s.p.timers) && E.Inv(s.p.table) && Can(s, a)
    ensures var s' := Do(s, a); var w, w' := s.p.fl.workers, s'.p.fl.workers;
            && |w'| == |w|
            && (forall j :: 0 <= j < |w| ==> (w'[j].idleDone <==> w[j].idleDone || (a == ByWorker(j, AskStop) && Stopping(s))))
            && (forall j :: 0 <= j < |w| && w'[j].pc.Exited? ==> w[j].pc.Exited? || w[j].idleDone)
            && (s.hasty ==> s'.hasty) && (s.late ==> s'.late)
            && (s.autostop && FromOutside(a) ==> s'.late)
  {
    assert T.Inv(s.p.timers);
    hide SysInv, T.Inv, DoWorker, DoFiber, DoUser, CanWorker, CanFiber, CanUser, Stopping;
    match a {
      case ByWorker(i, w) => WorkerEffects(s, i, w);
      case ByFiber(i, f) => FiberEffects(s, i, f);
      case ByUser(who, u) => UserShape(s, u);
      case Tick(_) =>
      case Stop =>
    }
  }

  lemma StopInvKept(s: State, a: Action)
    requires SysInv(s) && StopInv(s) && Can(s, a)
    ensures StopInv(Do(s, a))
  {
    FlagsOfWorkers(s, a);
    hide SysInv;
    var s' := Do(s, a);
    if !s'.hasty && !s'.late && exists i :: 0 <= i < |s'.p.fl.workers| && s'.p.fl.workers[i].idleDone {
      var i :| 0 <= i < |s'.p.fl.workers| && s'.p.fl.workers[i].idleDone;
      if s.p.fl.workers[i].idleDone {
        assert Stopping(s) && !InFlight(s);
        StopIsStable(s, a);
      } else {
        StopIsStable(s, a);
      }
    }
  }

  lemma {:induction false} StopInvOverRuns(s: State, acts: seq<Action>)
    requires SysInv(s) && StopInv(s)
    ensures StopInv(Run(s, acts))
    decreases |acts|
  {
    if acts != [] {
      if Can(s, acts[0]) {
        DoKeeps(s, acts[0]);
        StopInvKept(s, acts[0]);
        StopInvOverRuns(Do(s, acts[0]), acts[1..]);
      } else {
        StopInvOverRuns(s, acts[1..]);
      }
    }
  }

  /** When every worker has left `run`, there is no armed timer, no queued entry, no running fiber and no
      pending event, provided no check passed while work was in flight and nothing came from outside
      after `stop`. */
  lemma NothingLeftBehind(workers: nat, clock: T.u64, acts: seq<Action>)
    requires workers > 0
    ensures var s := After(workers, clock, acts);
            && |s.p.fl.workers| == workers
            && (!s.hasty && !s.late && AllExited(s) ==> NothingLeft(s))
  {
    hide SysInv, StopInv, AllExited, NothingLeft;
    StartInv(workers, clock);
    StopInvOverRuns(Start(workers, clock), acts);
    WorkersStay(Start(workers, clock), acts);
    var s := After(workers, clock, acts);
    if !s.hasty && !s.late && AllExited(s) {
      AllOut(s);
    }
  }

  predicate AllExited(s: State) {
    forall i :: 0 <= i < |s.p.fl.workers| ==> s.p.fl.workers[i].pc.Exited?
  }

  predicate NothingLeft(s: State) {
    && s.p.timers.armed == [] && s.p.queue == [] && s.p.fl.active == 0 && s.p.table.pending == 0
    && forall f :: 0 <= f < |s.p.fl.fibers| ==> !OnCpu(s.p.fl.fibers[f].pc)
  }

  lemma AllOut(s: State)
    requires SysInv(s) && StopInv(s) && |s.p.fl.workers| > 0 && !s.hasty && !s.late && AllExited(s)
    ensures NothingLeft(s)
  {
    assert FleetInv(s.p.fl);
    hide SysInv;
    assert s.p.fl.workers[0].idleDone;
    forall f | 0 <= f < |s.p.fl.fibers| ensures !OnCpu(s.p.fl.fibers[f].pc) {
      assert forall i :: 0 <= i < |s.p.fl.workers| ==> !RunsFiber(s.p.fl.workers[i], f);
    }
  }

  lemma {:induction false} WorkersStay(s: State, acts: seq<Action>)
    requires SysInv(s)
    ensures |Run(s, acts).p.fl.workers| == |s.p.fl.workers|
    decreases |acts|
  {
    if acts != [] {
      if Can(s, acts[0]) {
        DoKeeps(s, acts[0]);
        FlagsOfWorkers(s, acts[0]);
        WorkersStay(Do(s, acts[0]), acts[1..]);
      } else {
        WorkersStay(s, acts[1..]);
      }
    }
  }

  // ---------------------------------------------------------------- fibers that block twice

  /** Swapped out, still in state EXEC, and no worker is about to mark it HOLD. */
  ghost predicate Stuck(s: State, f: FiberId) {
    && f < |s.p.fl.fibers| && Parked(s.p.fl.fibers[f].pc) && s.p.fl.fibers[f].state == EXEC
    && forall i :: 0 <= i < |s.p.fl.workers| ==> !Refers(s.p.fl.workers[i], f)
  }

  /** A fiber that swaps out to wait is stuck if and only if it was running in the fiber branch of the
      loop. */
  lemma SecondHoldSticks(s: State, i: nat, a: FiberAct)
    requires SysInv(s) && CanFiber(s, i, a) && (a.IoPark? || a.SleepPark?)
    ensures i < |s.p.fl.workers| && s.p.fl.workers[i].pc.Inside?
    ensures Stuck(DoFiber(s, i, a), s.p.fl.workers[i].pc.f) <==> !s.p.fl.workers[i].pc.asCb
  {
    RunningFits(s, i);
    var f := Me(s, i);
    var w := s.p.fl.workers[i];
    RunningIsMine(s.p.fl, i, f);
    assert WorkerFits(w, s.p.fl.fibers);
    assert T.Inv(s.p.timers) && E.Inv(s.p.table);
    FiberShape(s, i, a);
    hide SysInv, T.Inv, E.Inv, DoFiber, CallsAfter, QueueAfter, TableAfter, TimersAfter, Cancelled;
    ParkedBy(s, i, a, DoFiber(s, i, a));
  }

  lemma ParkedBy(s: State, i: nat, a: FiberAct, s': State)
    requires CanFiber(s, i, a) && (a.IoPark? || a.SleepPark?) && Running(s, i) && s'.p.fl == FleetAfter(s, i, a)
    requires s.p.fl.fibers[Me(s, i)].state == EXEC && WorkerFits(s.p.fl.workers[i], s.p.fl.fibers) && OnCpu(MyPc(s, i))
    requires forall j :: 0 <= j < |s.p.fl.workers| && j != i ==> !Refers(s.p.fl.workers[j], Me(s, i))
    ensures Stuck(s', Me(s, i)) <==> !s.p.fl.workers[i].pc.asCb
  {
    var f, w, w' := Me(s, i), s.p.fl.workers[i], s'.p.fl.workers[i];
    assert Refers(w', f) <==> w.pc.asCb;
    forall j | 0 <= j < |s'.p.fl.workers| && j != i ensures !Refers(s'.p.fl.workers[j], f) {
      assert s'.p.fl.workers[j] == s.p.fl.workers[j];
    }
  }

  /** In the callback branch the worker goes on to mark the fiber: two actions later it is in state HOLD,
      can be entered again, and is no longer the worker's. */
  lemma FirstHoldSettles(s: State, i: nat)
    requires SysInv(s) && CanUncount(s, i) && PcAt(s, i).asCb && PcAt(s, i).f < |s.p.fl.fibers|
    requires Parked(s.p.fl.fibers[PcAt(s, i).f].pc)
    ensures var f := PcAt(s, i).f; var s' := Run(s, [ByWorker(i, Uncount), ByWorker(i, SettleCb)]);
            && f < |s'.p.fl.fibers| && s'.p.fl.fibers[f] == s.p.fl.fibers[f].(state := HOLD) && Enterable(s'.p.fl.fibers, f)
            && forall j :: 0 <= j < |s'.p.fl.workers| ==> !Refers(s'.p.fl.workers[j], f)
  {
    var acts := [ByWorker(i, Uncount), ByWorker(i, SettleCb)];
    var s1 := DoUncount(s, i);
    DoKeeps(s, acts[0]);
    assert acts[1..] == [ByWorker(i, SettleCb)];
    SettlesToHold(s, i);
    OneAction(s1, ByWorker(i, SettleCb));
    assert Run(s, acts) == Run(s1, [ByWorker(i, SettleCb)]);
    hide SysInv, Run, DoUncount, DoSettle;
  }

  lemma SettlesToHold(s: State, i: nat)
    requires SysInv(s) && CanUncount(s, i) && PcAt(s, i).asCb && PcAt(s, i).f < |s.p.fl.fibers|
    requires Parked(s.p.fl.fibers[PcAt(s, i).f].pc)
    ensures CanSettle(DoUncount(s, i), i)
    ensures var f := PcAt(s, i).f; var s' := DoSettle(DoUncount(s, i), i);
            && f < |s'.p.fl.fibers| && s'.p.fl.fibers[f] == s.p.fl.fibers[f].(state := HOLD) && Enterable(s'.p.fl.fibers, f)
            && forall j :: 0 <= j < |s'.p.fl.workers| ==> !Refers(s'.p.fl.workers[j], f)
  {
    var f := PcAt(s, i).f;
    assert WorkerFits(s.p.fl.workers[i], s.p.fl.fibers) && StateFits(s.p.fl.fibers[f]) && Refers(s.p.fl.workers[i], f);
    RunningIsMine(s.p.fl, i, f);
    hide SysInv, IsActive, IsIdle;
    var s' := DoSettle(DoUncount(s, i), i);
    forall j | 0 <= j < |s'.p.fl.workers| ensures !Refers(s'.p.fl.workers[j], f) {
      assert j != i ==> s'.p.fl.workers[j] == s.p.fl.workers[j];
    }
  }

  /** A fiber is brought back from a wait in the fiber branch only, so its next wait is such a swap-out. */
  lemma ResumedInFiberBranch(s: State, i: nat)
    requires SysInv(s) && CanEnter(s, i) && Parked(s.p.fl.fibers[PcAt(s, i).f].pc)
    ensures PcAt(s, i).f == DoEnter(s, i).p.fl.workers[i].pc.f && !DoEnter(s, i).p.fl.workers[i].pc.asCb
  {
    assert WorkerFits(s.p.fl.workers[i], s.p.fl.fibers);
  }

  lemma StuckStep(s: State, a: Action, f: FiberId)
    requires SysInv(s) && Can(s, a) && Stuck(s, f)
    ensures Stuck(Do(s, a), f) && Do(s, a).p.fl.fibers[f] == s.p.fl.fibers[f]
  {
    match a
    case ByWorker(i, w) =>
      if w.Scan? { StuckIsSkipped(s, i, f); } else { StuckByWorker(s, i, w, f); }
    case ByFiber(i, x) => StuckByFiber(s, i, x, f);
    case ByUser(who, u) => StuckByUser(s, u, f);
    case Tick(_) =>
    case Stop =>
  }

  /** Worker `i` changed without getting a hand on `f`, and `f` did not change. */
  lemma StuckMove(s: State, s': State, i: nat, f: FiberId)
    requires Stuck(s, f) && i < |s.p.fl.workers| && |s'.p.fl.workers| == |s.p.fl.workers|
    requires forall j :: 0 <= j < |s.p.fl.workers| && j != i ==> s'.p.fl.workers[j] == s.p.fl.workers[j]
    requires !Refers(s'.p.fl.workers[i], f)
    requires f < |s'.p.fl.fibers| && s'.p.fl.fibers[f] == s.p.fl.fibers[f]
    ensures Stuck(s', f)
  {}

  lemma StuckByWorker(s: State, i: nat, a: WorkerAct, f: FiberId)
    requires T.Inv(s.p.timers) && E.Inv(s.p.table) && CanWorker(s, i, a) && Stuck(s, f) && !a.Scan?
    ensures Stuck(DoWorker(s, i, a), f) && DoWorker(s, i, a).p.fl.fibers[f] == s.p.fl.fibers[f]
  {
    WorkerEffects(s, i, a);
    hide SysInv, DoWorker, Stopping;
    assert !Refers(s.p.fl.workers[i], f);
    StuckMove(s, DoWorker(s, i, a), i, f);
  }

  lemma StuckByFiber(s: State, i: nat, a: FiberAct, f: FiberId)
    requires T.Inv(s.p.timers) && E.Inv(s.p.table) && CanFiber(s, i, a) && Stuck(s, f)
    ensures Stuck(DoFiber(s, i, a), f) && DoFiber(s, i, a).p.fl.fibers[f] == s.p.fl.fibers[f]
  {
    FiberEffects(s, i, a);
    hide SysInv, DoFiber;
    assert !Refers(s.p.fl.workers[i], f);
    StuckMove(s, DoFiber(s, i, a), i, f);
  }

  lemma StuckByUser(s: State, a: UserAct, f: FiberId)
    requires SysInv(s) && CanUser(s, a) && Stuck(s, f)
    ensures Stuck(DoUser(s, a), f) && DoUser(s, a).p.fl.fibers[f] == s.p.fl.fibers[f]
  {
    assert T.Inv(s.p.timers);
    UserShape(s, a);
    hide SysInv, T.Inv, DoUser, CanUser;
  }

  lemma StuckIsSkipped(s: State, i: nat, f: FiberId)
    requires T.Inv(s.p.timers) && E.Inv(s.p.table) && i < |s.p.fl.workers| && PcAt(s, i).Head? && Stuck(s, f)
    ensures Stuck(DoScan(s, i), f) && DoScan(s, i).p.fl.fibers == s.p.fl.fibers
  {
    var n := QS.Scan(s.p.queue, i, ExecSet(s.p.fl.fibers)).0;
    if n < |s.p.queue| {
      QS.ScanExact(s.p.queue, i, ExecSet(s.p.fl.fibers));
      assert QS.Eligible(s.p.queue[n], i, ExecSet(s.p.fl.fibers));
      assert f in ExecSet(s.p.fl.fibers);
      assert s.p.queue[n].content != FiberOf(f);
    }
    hide QS.Scan, QS.Eligible, SysInv;
    forall j | 0 <= j < |s.p.fl.workers| ensures !Refers(DoScan(s, i).p.fl.workers[j], f) {
      assert !Refers(s.p.fl.workers[j], f);
    }
  }

  /** A stuck fiber never moves again, whatever happens. */
  lemma {:induction false} StuckForever(s: State, acts: seq<Action>, f: FiberId)
    requires SysInv(s) && Stuck(s, f)
    ensures Stuck(Run(s, acts), f) && Run(s, acts).p.fl.fibers[f] == s.p.fl.fibers[f]
    decreases |acts|
  {
    if acts != [] {
      if Can(s, acts[0]) {
        DoKeeps(s, acts[0]);
        StuckStep(s, acts[0], f);
        StuckForever(Do(s, acts[0]), acts[1..], f);
      } else {
        StuckForever(s, acts[1..], f);
      }
    }
  }
}
