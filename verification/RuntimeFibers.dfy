/** Every action of a fiber keeps the system invariant: running callbacks, `do_io` and `sleep`. */
module RuntimeFibers {
  import opened Common
  import opened Sums
  import opened Fleet
  import opened Tokens
  import opened TimerWeights
  import opened Runtime
  import opened RuntimeSteps
  import T = TimerSpec
  import E = EventSpec

  /** A fiber on a worker, as the invariant knows it. */
  lemma RunningFits(s: State, i: nat)
    requires SysInv(s) && Running(s, i)
    ensures OnCpu(MyPc(s, i)) && s.p.fl.fibers[Me(s, i)].state == EXEC
    ensures RunsFiber(s.p.fl.workers[i], Me(s, i)) && Refers(s.p.fl.workers[i], Me(s, i))
    ensures FiberOk(s.p.fl.fibers[Me(s, i)], s.calls, s.clock, s.rolled)
    ensures InCall(MyPc(s, i)).Some? ==>
              AtCall(s, i) && s.calls[MyCall(s, i)].fiber == Me(s, i) && s.calls[MyCall(s, i)].result.None?
  {
    assert WorkerFits(s.p.fl.workers[i], s.p.fl.fibers);
    assert StateFits(s.p.fl.fibers[Me(s, i)]);
  }

  /** What changes with a fiber's position when neither its tokens nor its debt change. */
  predicate Neutral(x: Fiber, y: Fiber) {
    && Waits(x.pc) == Waits(y.pc)
    && !y.pc.Begin? && !y.pc.Loaded? && !y.pc.Fresh?
    && (x.pc.Begin? ==> !x.pc.cb.Wake?) && !x.pc.Loaded? && !x.pc.Fresh?
  }

  lemma NeutralTokens(p: Places, f: FiberId, x: Fiber, p': Places)
    requires TokenInv(p) && f < |p.fl.fibers| && Neutral(p.fl.fibers[f], x)
    requires p'.fl.fibers == p.fl.fibers[f := x]
    requires p'.queue == p.queue && p'.table == p.table && p'.timers == p.timers
    requires |p'.fl.workers| == |p.fl.workers|
    requires forall g: FiberId :: Sum(p'.fl.workers, InWorker(g)) == Sum(p.fl.workers, InWorker(g))
    ensures TokenInv(p')
  {
    forall g: FiberId ensures Held(p', g) == Owed(p'.fl.fibers, g) {
      assert Held(p, g) == Owed(p.fl.fibers, g);
      SumUpdate(p.fl.fibers, f, x, InFiber(g));
    }
  }

  /** The general step of a running fiber: its position and the calls change, nothing else. */
  lemma FiberStepKeeps(s: State, f: FiberId, x: Fiber, s': State)
    requires SysInv(s) && f < |s.p.fl.fibers| && Neutral(s.p.fl.fibers[f], x)
    requires s'.p.fl.fibers == s.p.fl.fibers[f := x] && s'.p.fl.workers == s.p.fl.workers
    requires s'.p.queue == s.p.queue && s'.p.table == s.p.table && s'.p.timers == s.p.timers
    requires s'.clock == s.clock && s'.rolled == s.rolled
    requires FleetInv(s'.p.fl)
    requires Grown(s.calls, s'.calls) && CallsOk(s'.calls, s.clock, s.rolled)
    requires Links(s'.calls, s'.p.fl.fibers) && TimerLinks(s'.calls, s'.p.fl.fibers, s.p.timers.recs)
    ensures SysInv(s')
  {
    hide E.Inv, T.Inv, SlotsClean, FleetInv, Links, TimerLinks, CallsOk;
    NeutralTokens(s.p, f, x, s'.p);
    InHandGrows(s.p.queue, s.p.fl, s.calls, s.clock, s.rolled, s'.calls, s.clock, s.rolled);
  }

  /** The same, for a fiber that swaps out. */
  lemma SwapOutStepKeeps(s: State, i: nat, x: Fiber)
    requires SysInv(s) && Running(s, i) && Neutral(s.p.fl.fibers[Me(s, i)], x)
    requires (Parked(x.pc) && x.state == EXEC) || (x.pc.Finished? && (x.state == TERM || x.state == EXCEPT))
    requires var fibers' := s.p.fl.fibers[Me(s, i) := x];
             Links(s.calls, fibers') && TimerLinks(s.calls, fibers', s.p.timers.recs)
    ensures SysInv(s.(p := s.p.(fl := SwapOut(s.p.fl, i, x))))
  {
    hide E.Inv, T.Inv, SlotsClean, FleetInv, Links, TimerLinks, CallsOk, TokenInv;
    var f := Me(s, i);
    var s' := s.(p := s.p.(fl := SwapOut(s.p.fl, i, x)));
    SwapOutKeeps(s.p.fl, i, x);
    forall g: FiberId ensures Sum(s'.p.fl.workers, InWorker(g)) == Sum(s.p.fl.workers, InWorker(g)) {
      SumUpdate(s.p.fl.workers, i, s'.p.fl.workers[i], InWorker(g));
    }
    NeutralTokens(s.p, f, x, s'.p);
  }

  /** Moving a fiber outside any call, with no change in its tokens. */
  lemma GoOutside(s: State, i: nat, pc: Pc)
    requires SysInv(s) && Running(s, i) && OnCpu(pc) && !Waits(pc) && !pc.Begin?
    requires InCall(MyPc(s, i)).None? && !Waits(MyPc(s, i)) && (MyPc(s, i).Begin? ==> !MyPc(s, i).cb.Wake?)
    requires InCall(pc).None? && (pc.Cancelling? ==> pc.c < |s.calls|)
    ensures SysInv(Go(s, i, pc))
  {
    RunningFits(s, i);
    var f := Me(s, i);
    var x := s.p.fl.fibers[f].(pc := pc);
    GotoKeeps(s.p.fl, i, f, pc);
    MoveOutside(s.calls, s.p.fl.fibers, s.p.timers.recs, f, x);
    FiberStepKeeps(s, f, x, Go(s, i, pc));
  }

  /** Moving a fiber within its call, with no change in its tokens. */
  lemma GoInside(s: State, i: nat, pc: Pc)
    requires SysInv(s) && AtCall(s, i) && OnCpu(pc) && !Waits(pc) && !Waits(MyPc(s, i))
    requires InCall(pc) == InCall(MyPc(s, i)) && (MayHaveTimer(MyPc(s, i)) ==> MayHaveTimer(pc))
    ensures SysInv(Go(s, i, pc))
  {
    RunningFits(s, i);
    var f := Me(s, i);
    var x := s.p.fl.fibers[f].(pc := pc);
    GotoKeeps(s.p.fl, i, f, pc);
    MoveInside(s.calls, s.p.fl.fibers, s.p.timers.recs, f, x);
    FiberStepKeeps(s, f, x, Go(s, i, pc));
  }

  // ---------------------------------------------------------------- callbacks

  /** The sleep closure becomes a queue entry of the sleeping fiber. */
  lemma BeginWakeKeeps(s: State, i: nat)
    requires SysInv(s) && CanBegin(s, i) && MyPc(s, i).cb.Wake?
    ensures SysInv(DoBeginWake(s, i))
  {
    hide E.Inv, T.Inv, SlotsClean, FleetInv, Links, TimerLinks, CallsOk;
    RunningFits(s, i);
    var f := Me(s, i);
    var x := s.p.fl.fibers[f].(pc := Ending);
    GotoKeeps(s.p.fl, i, f, Ending);
    MoveOutside(s.calls, s.p.fl.fibers, s.p.timers.recs, f, x);
    WakeTokens(s.p, f, x, DoBeginWake(s, i).p);
  }

  lemma WakeTokens(p: Places, f: FiberId, x: Fiber, p': Places)
    requires TokenInv(p) && f < |p.fl.fibers| && p.fl.fibers[f].pc.Begin? && p.fl.fibers[f].pc.cb.Wake? && x.pc.Ending?
    requires p'.fl.fibers == p.fl.fibers[f := x] && p'.fl.workers == p.fl.workers
    requires p'.queue == p.queue + [Entry(FiberOf(p.fl.fibers[f].pc.cb.f), -1)]
    requires p'.table == p.table && p'.timers == p.timers
    ensures TokenInv(p')
  {
    forall g: FiberId ensures Held(p', g) == Owed(p'.fl.fibers, g) {
      assert Held(p, g) == Owed(p.fl.fibers, g);
      SumUpdate(p.fl.fibers, f, x, InFiber(g));
      SumAppend(p.queue, Entry(FiberOf(p.fl.fibers[f].pc.cb.f), -1), InEntry(g));
    }
  }

  /** Setting `cancelled` of a call, when the closure is due. */
  lemma MarkKeeps(s: State, c: nat, k: nat)
    requires SysInv(s) && c < |s.calls| && Due(s.calls[c], k, s.clock, s.rolled)
    requires s.calls[c].result != Some(TimedOut) || s.calls[c].cancelled.Some?
    ensures SysInv(SetCall(s, c, s.calls[c].(cancelled := Some(k))))
  {
    hide E.Inv, T.Inv, SlotsClean, FleetInv, InHand, TokenInv;
    var call := s.calls[c].(cancelled := Some(k));
    var s' := SetCall(s, c, call);
    InHandGrows(s.p.queue, s.p.fl, s.calls, s.clock, s.rolled, s'.calls, s.clock, s.rolled);
    forall a | a in s.p.timers.recs ensures TimeoutTimer(s'.calls, s.p.fl.fibers, a, s.p.timers.recs[a]) {
      assert TimeoutTimer(s.calls, s.p.fl.fibers, a, s.p.timers.recs[a]);
    }
    forall d | 0 <= d < |s'.calls| ensures OwnTimer(s.p.timers.recs, d, s'.calls[d]) {
      assert OwnTimer(s.p.timers.recs, d, s.calls[d]);
    }
  }

  lemma BeginTimeoutKeeps(s: State, i: nat)
    requires SysInv(s) && CanBeginTimeout(s, i)
    ensures SysInv(DoBeginTimeout(s, i))
  {
    RunningFits(s, i);
    var c := MyPc(s, i).cb.call;
    if s.calls[c].result.Some? || s.calls[c].cancelled.Some? {
      GoOutside(s, i, Ending);
    } else {
      GoOutside(s, i, Cancelling(c));
      MarkKeeps(Go(s, i, Cancelling(c)), c, MyPc(s, i).cb.k);
    }
  }

  lemma CancelWaitKeeps(s: State, i: nat, granted: bool)
    requires SysInv(s) && CanCancelWait(s, i)
    ensures SysInv(DoCancelWait(s, i, granted))
  {
    hide E.CancelEvent, E.Kept, E.Inv, T.Inv, CallInv;
    var call := s.calls[MyPc(s, i).c];
    var r := E.CancelEvent(s.p.table, call.fd, call.ev, granted);
    E.CancelEventKeeps(s.p.table, call.fd, call.ev, granted);
    WokenKeeps(s, r, []);
    GoOutside(Woken(s, r), i, Ending);
  }

  /** A fiber that ends is held nowhere, and stays finished. */
  lemma EndKeeps(s: State, i: nat, threw: bool)
    requires SysInv(s) && CanEnd(s, i)
    ensures SysInv(DoEnd(s, i, threw))
  {
    var x := Fiber(if threw then EXCEPT else TERM, Finished);
    MoveOutside(s.calls, s.p.fl.fibers, s.p.timers.recs, Me(s, i), x);
    SwapOutStepKeeps(s, i, x);
  }

  /** A registered fiber swaps out; its token is already where it will be found. */
  lemma ParkKeeps(s: State, i: nat, pc: Pc)
    requires SysInv(s) && Running(s, i)
    requires (MyPc(s, i).IoYield? && pc == IoParked(MyPc(s, i).c)) || (MyPc(s, i).SleepYield? && pc == SleepParked)
    ensures SysInv(DoPark(s, i, pc))
  {
    RunningFits(s, i);
    var x := Fiber(EXEC, pc);
    if MyPc(s, i).IoYield? {
      MoveInside(s.calls, s.p.fl.fibers, s.p.timers.recs, Me(s, i), x);
    } else {
      MoveOutside(s.calls, s.p.fl.fibers, s.p.timers.recs, Me(s, i), x);
    }
    SwapOutStepKeeps(s, i, x);
  }

  // ---------------------------------------------------------------- do_io

  /** A new call: its fiber is in it, and no timer can belong to it yet. */
  lemma StartLinks(calls: seq<Call>, fibers: seq<Fiber>, recs: T.Records, f: FiberId, x: Fiber, call: Call)
    requires Links(calls, fibers) && TimerLinks(calls, fibers, recs) && f < |fibers|
    requires InCall(fibers[f].pc).None? && x.pc == IoTry(|calls|)
    requires call.fiber == f && call.timer.None? && call.result.None?
    ensures Links(calls + [call], fibers[f := x]) && TimerLinks(calls + [call], fibers[f := x], recs)
  {
    forall a | a in recs ensures TimeoutTimer(calls + [call], fibers[f := x], a, recs[a]) {
      assert TimeoutTimer(calls, fibers, a, recs[a]);
    }
    forall c | 0 <= c < |calls + [call]| ensures OwnTimer(recs, c, (calls + [call])[c]) {
      assert c < |calls| ==> OwnTimer(recs, c, calls[c]);
    }
  }

  lemma IoStartKeeps(s: State, i: nat, fd: nat, ev: E.Event, to: Option<T.u64>)
    requires SysInv(s) && InCode(s, i)
    ensures SysInv(DoIoStart(s, i, fd, ev, to))
  {
    RunningFits(s, i);
    var f := Me(s, i);
    var pc := IoTry(|s.calls|);
    var x := s.p.fl.fibers[f].(pc := pc);
    var s' := DoIoStart(s, i, fd, ev, to);
    GotoKeeps(s.p.fl, i, f, pc);
    StartLinks(s.calls, s.p.fl.fibers, s.p.timers.recs, f, x, s'.calls[|s.calls|]);
    FiberStepKeeps(s, f, x, s');
  }

  /** The call ends: its fiber leaves it, and no timer of it is armed any more. */
  lemma ReturnLinks(calls: seq<Call>, fibers: seq<Fiber>, recs: T.Records, f: FiberId, x: Fiber, c: nat, r: IoResult)
    requires Links(calls, fibers) && TimerLinks(calls, fibers, recs) && f < |fibers|
    requires InCall(fibers[f].pc) == Some(c) && c < |calls| && x.pc.Code?
    requires forall a, k :: a in recs ==> recs[a].cb != Some(Timeout(c, k))
    ensures var calls' := calls[c := calls[c].(result := Some(r))];
            Links(calls', fibers[f := x]) && TimerLinks(calls', fibers[f := x], recs)
  {
    var calls' := calls[c := calls[c].(result := Some(r))];
    forall a | a in recs ensures TimeoutTimer(calls', fibers[f := x], a, recs[a]) {
      assert TimeoutTimer(calls, fibers, a, recs[a]);
      if recs[a].cb.Some? && recs[a].cb.value.Timeout? {
        assert recs[a].cb != Some(Timeout(c, recs[a].cb.value.k));
      }
    }
    forall d | 0 <= d < |calls'| ensures OwnTimer(recs, d, calls'[d]) {
      assert OwnTimer(recs, d, calls[d]);
    }
  }

  lemma ReturnKeeps(s: State, i: nat, r: IoResult)
    requires SysInv(s) && AtCall(s, i) && !Waits(MyPc(s, i))
    requires forall a, k :: a in s.p.timers.recs ==> s.p.timers.recs[a].cb != Some(Timeout(MyCall(s, i), k))
    requires r == TimedOut ==> s.calls[MyCall(s, i)].cancelled.Some?
    ensures SysInv(Return(s, i, r))
  {
    RunningFits(s, i);
    var f, c := Me(s, i), MyCall(s, i);
    var x := s.p.fl.fibers[f].(pc := Code);
    var s' := Return(s, i, r);
    GotoKeeps(s.p.fl, i, f, Code);
    ReturnLinks(s.calls, s.p.fl.fibers, s.p.timers.recs, f, x, c, r);
    assert CallOk(s.calls[c], s.clock, s.rolled);
    FiberStepKeeps(s, f, x, s');
  }

  /** Outside the timed stretch of `do_io`, no timer of the call is armed. */
  lemma NoTimerOutside(s: State, i: nat)
    requires SysInv(s) && AtCall(s, i) && !MayHaveTimer(MyPc(s, i))
    ensures forall a, k :: a in s.p.timers.recs ==> s.p.timers.recs[a].cb != Some(Timeout(MyCall(s, i), k))
  {
    RunningFits(s, i);
    var recs := s.p.timers.recs;
    forall a, k | a in recs ensures recs[a].cb != Some(Timeout(MyCall(s, i), k)) {
      assert TimeoutTimer(s.calls, s.p.fl.fibers, a, recs[a]);
    }
  }

  /** Arming the condition timer of a call. */
  lemma ArmLinks(calls: seq<Call>, fibers: seq<Fiber>, recs: T.Records, c: nat, a: nat, born: T.u64)
    requires Links(calls, fibers) && TimerLinks(calls, fibers, recs)
    requires c < |calls| && calls[c].to.Some? && a !in recs
    requires calls[c].fiber < |fibers| && fibers[calls[c].fiber].pc == IoReady(c)
    requires forall b, k :: b in recs ==> recs[b].cb != Some(Timeout(c, k))
    ensures var call := calls[c].(timer := Some(a), arms := calls[c].arms + [born]);
            var r := T.TimerRec(T.Add64(born, calls[c].to.value), calls[c].to.value, false, Some(Timeout(c, |calls[c].arms|)));
            Links(calls[c := call], fibers) && TimerLinks(calls[c := call], fibers, recs[a := r])
  {
    var call := calls[c].(timer := Some(a), arms := calls[c].arms + [born]);
    var r := T.TimerRec(T.Add64(born, calls[c].to.value), calls[c].to.value, false, Some(Timeout(c, |calls[c].arms|)));
    var recs', calls' := recs[a := r], calls[c := call];
    forall b | b in recs' ensures TimeoutTimer(calls', fibers, b, recs'[b]) {
      if b != a {
        assert TimeoutTimer(calls, fibers, b, recs[b]);
        if recs[b].cb.Some? && recs[b].cb.value.Timeout? {
          assert recs[b].cb != Some(Timeout(c, recs[b].cb.value.k));
        }
      }
    }
    forall d | 0 <= d < |calls'| ensures OwnTimer(recs', d, calls'[d]) {
      assert OwnTimer(recs, d, calls[d]);
    }
  }

  lemma IoAgainKeeps(s: State, i: nat, a: nat, born: T.u64)
    requires SysInv(s) && CanIoAgain(s, i, a, born)
    ensures SysInv(DoIoAgain(s, i, a, born))
  {
    RunningFits(s, i);
    NoTimerOutside(s, i);
    var c := MyCall(s, i);
    GoInside(s, i, IoReady(c));
    if s.calls[c].to.Some? {
      ArmCallKeeps(Go(s, i, IoReady(c)), c, a, born);
    }
  }

  lemma ArmCallKeeps(s: State, c: nat, a: nat, born: T.u64)
    requires SysInv(s) && c < |s.calls| && s.calls[c].to.Some? && a !in s.p.timers.recs
    requires s.calls[c].fiber < |s.p.fl.fibers| && s.p.fl.fibers[s.calls[c].fiber].pc == IoReady(c)
    requires forall b, k :: b in s.p.timers.recs ==> s.p.timers.recs[b].cb != Some(Timeout(c, k))
    ensures var call := s.calls[c];
            var q := T.Add(s.p.timers, a, born, call.to.value, Timeout(c, |call.arms|), false).0;
            SysInv(SetCall(s.(p := s.p.(timers := q)), c, call.(timer := Some(a), arms := call.arms + [born])))
  {
    hide T.Add;
    hide E.Inv, T.Inv, SlotsClean, FleetInv, Links, TimerLinks, InHand;
    var call := s.calls[c];
    var cb := Timeout(c, |call.arms|);
    var call' := call.(timer := Some(a), arms := call.arms + [born]);
    var q := T.Add(s.p.timers, a, born, call.to.value, cb, false).0;
    var s' := SetCall(s.(p := s.p.(timers := q)), c, call');
    T.AddIntegrity(s.p.timers, a, born, call.to.value, cb, false);
    ArmLinks(s.calls, s.p.fl.fibers, s.p.timers.recs, c, a, born);
    assert TokenInv(s'.p) by {
      forall f: FiberId ensures Held(s'.p, f) == Owed(s'.p.fl.fibers, f) {
        assert Held(s.p, f) == Owed(s.p.fl.fibers, f);
        AddWeight(s.p.timers, a, born, call.to.value, cb, false, Wakes(f));
      }
    }
    InHandGrows(s.p.queue, s.p.fl, s.calls, s.clock, s.rolled, s'.calls, s.clock, s.rolled);
    assert CallOk(call, s.clock, s.rolled);
  }

  lemma RefusalKeeps(s: State, i: nat, r: E.Result)
    requires SysInv(s) && AtCall(s, i) && MyPc(s, i).IoReady?
    requires r.Done? && r.woken == [] && r.dropped == [] && E.Kept(s.p.table, r, [])
    ensures SysInv(Go(Woken(s, r), i, IoFail(MyCall(s, i))))
  {
    hide SysInv, E.Kept;
    WokenKeeps(s, r, []);
    GoInside(Woken(s, r), i, IoFail(MyCall(s, i)));
  }

  /** `addEvent` of the calling fiber: its token appears in the slot, and it now waits. */
  lemma IoAddKeeps(s: State, i: nat, granted: bool)
    requires SysInv(s) && CanIoAdd(s, i, granted)
    ensures SysInv(DoIoAdd(s, i, granted))
  {
    assert E.Inv(s.p.table);
    hide SysInv, E.Inv, E.AddEvent, E.Kept;
    var f, c := Me(s, i), MyCall(s, i);
    var r := E.AddEvent(s.p.table, s.calls[c].fd, s.calls[c].ev, FiberOf(f), granted);
    E.AddEventKeeps(s.p.table, s.calls[c].fd, s.calls[c].ev, FiberOf(f), granted);
    if r.ok {
      RegisterKeeps(s, i, r);
    } else {
      RefusalKeeps(s, i, r);
    }
  }

  lemma RegisterKeeps(s: State, i: nat, r: E.Result)
    requires SysInv(s) && AtCall(s, i) && MyPc(s, i).IoReady?
    requires r.Done? && r.woken == [] && r.dropped == [] && E.Kept(s.p.table, r, [FiberOf(Me(s, i))])
    ensures SysInv(Go(Woken(s, r), i, IoYield(MyCall(s, i))))
  {
    hide E.Inv, T.Inv, SlotsClean, FleetInv, Links, TimerLinks, TokenInv, CallsOk, E.Kept;
    RunningFits(s, i);
    var f, c := Me(s, i), MyCall(s, i);
    var x := s.p.fl.fibers[f].(pc := IoYield(c));
    var s' := Go(Woken(s, r), i, IoYield(c));
    assert s.p.queue + Unpinned([]) == s.p.queue;
    GotoKeeps(s.p.fl, i, f, IoYield(c));
    MoveInside(s.calls, s.p.fl.fibers, s.p.timers.recs, f, x);
    forall cb: Callback ensures E.Occurs([FiberOf(f)], CallbackOf(cb)) == 0 {
      SumAppend([], FiberOf(f), E.Same(CallbackOf(cb)));
      assert [] + [FiberOf(f)] == [FiberOf(f)];
    }
    SlotsStayClean(s.p.table, r, [FiberOf(f)]);
    KeptInv(s.p.table, r, [FiberOf(f)]);
    RegisterTokens(s.p, f, x, r, s'.p);
  }

  /** The slot of an accepted fiber holds one more token of that fiber. */
  lemma RegisterWaiting(t: E.Table, r: E.Result, f: FiberId, g: FiberId)
    requires r.Done? && r.woken == [] && r.dropped == [] && E.Kept(t, r, [FiberOf(f)])
    ensures InSlots(r.table, g) == InSlots(t, g) + if g == f then 1 else 0
  {
    hide E.Inv;
    SumAppend([], FiberOf(f), E.Same(FiberOf(g)));
    SumAppend([], FiberOf(f), E.Same(CallbackOf(Wake(g))));
    assert [] + [FiberOf(f)] == [FiberOf(f)];
  }

  lemma RegisterTokens(p: Places, f: FiberId, x: Fiber, r: E.Result, p': Places)
    requires TokenInv(p) && f < |p.fl.fibers| && p.fl.fibers[f].pc.IoReady? && x.pc.IoYield?
    requires r.Done? && r.woken == [] && r.dropped == [] && E.Kept(p.table, r, [FiberOf(f)])
    requires p'.fl.fibers == p.fl.fibers[f := x] && p'.fl.workers == p.fl.workers
    requires p'.queue == p.queue && p'.timers == p.timers && p'.table == r.table
    ensures TokenInv(p')
  {
    hide E.Kept, InSlots;
    forall g: FiberId ensures Held(p', g) == Owed(p'.fl.fibers, g) {
      assert Held(p, g) == Owed(p.fl.fibers, g);
      SumUpdate(p.fl.fibers, f, x, InFiber(g));
      RegisterWaiting(p.table, r, f, g);
    }
  }

  /** Cancelling the call's own timer. */
  lemma DisarmKeeps(s: State, i: nat)
    requires SysInv(s) && CanDisarm(s, i)
    ensures SysInv(Disarmed(s, MyCall(s, i)))
    ensures forall a, k :: a in Disarmed(s, MyCall(s, i)).p.timers.recs ==>
                             Disarmed(s, MyCall(s, i)).p.timers.recs[a].cb != Some(Timeout(MyCall(s, i), k))
    ensures Disarmed(s, MyCall(s, i)).calls == s.calls && Disarmed(s, MyCall(s, i)).p.fl == s.p.fl
  {
    RunningFits(s, i);
    var c := MyCall(s, i);
    var s' := Disarmed(s, c);
    if s.calls[c].timer.Some? {
      var a := s.calls[c].timer.value;
      assert OwnTimer(s.p.timers.recs, c, s.calls[c]);
      CancelTimerKeeps(s, a);
    }
    forall b, k | b in s'.p.timers.recs ensures s'.p.timers.recs[b].cb != Some(Timeout(c, k)) {
      assert TimeoutTimer(s'.calls, s'.p.fl.fibers, b, s'.p.timers.recs[b]);
    }
  }

  /** Cancelling any timer that is not a sleep timer. */
  lemma CancelTimerKeeps(s: State, a: nat)
    requires SysInv(s) && a in s.p.timers.recs
    requires s.p.timers.recs[a].cb.Some? ==> !s.p.timers.recs[a].cb.value.Wake?
    ensures var s' := s.(p := s.p.(timers := T.Cancel(s.p.timers, a).0));
            SysInv(s') && a in s'.p.timers.recs && s'.p.timers.recs[a].cb.None?
  {
    hide T.Cancel;
    var q := T.Cancel(s.p.timers, a).0;
    T.CancelIntegrity(s.p.timers, a);
    CancelRecords(s.p.timers, a);
    forall f: FiberId ensures Armed(q, Wakes(f)) == Armed(s.p.timers, Wakes(f)) {
      CancelWeight(s.p.timers, a, Wakes(f));
    }
    TimersKeep(s, q) by {
      var recs := s.p.timers.recs;
      forall b | b in q.recs ensures TimeoutTimer(s.calls, s.p.fl.fibers, b, q.recs[b]) {
        assert TimeoutTimer(s.calls, s.p.fl.fibers, b, recs[b]);
      }
      forall c | 0 <= c < |s.calls| ensures OwnTimer(q.recs, c, s.calls[c]) {
        assert OwnTimer(recs, c, s.calls[c]);
      }
    }
  }

  lemma CancelRecords(q: T.Queue, a: nat)
    requires T.Inv(q) && a in q.recs
    ensures T.Cancel(q, a).0.recs == q.recs[a := q.recs[a].(cb := None)]
  {}

  /** Replacing the timer queue by one with the same sleep closures and intact links. */
  lemma TimersKeep(s: State, q: T.Queue)
    requires SysInv(s) && T.Inv(q) && TimerLinks(s.calls, s.p.fl.fibers, q.recs)
    requires forall f: FiberId :: Armed(q, Wakes(f)) == Armed(s.p.timers, Wakes(f))
    ensures SysInv(s.(p := s.p.(timers := q)))
  {
    hide T.Inv, E.Inv, SlotsClean, FleetInv, Links, TimerLinks, InHand;
    var p' := s.p.(timers := q);
    forall f: FiberId ensures Held(p', f) == Owed(p'.fl.fibers, f) {
      assert Held(s.p, f) == Owed(s.p.fl.fibers, f);
    }
  }

  lemma IoDisarmKeeps(s: State, i: nat)
    requires SysInv(s) && CanDisarm(s, i) && MyPc(s, i).IoWoken?
    ensures SysInv(DoIoDisarm(s, i))
  {
    assert T.Inv(s.p.timers);
    hide SysInv;
    DisarmKeeps(s, i);
    GoChecked(Disarmed(s, MyCall(s, i)), i);
  }

  lemma CheckedLinks(s: State, c: nat, f: FiberId, x: Fiber)
    requires Links(s.calls, s.p.fl.fibers) && TimerLinks(s.calls, s.p.fl.fibers, s.p.timers.recs)
    requires f < |s.p.fl.fibers| && s.p.fl.fibers[f].pc == IoWoken(c) && x.pc == IoCheck(c)
    requires forall a, k :: a in s.p.timers.recs ==> s.p.timers.recs[a].cb != Some(Timeout(c, k))
    ensures var fibers' := s.p.fl.fibers[f := x];
            Links(s.calls, fibers') && TimerLinks(s.calls, fibers', s.p.timers.recs)
  {
    var fibers' := s.p.fl.fibers[f := x];
    forall a | a in s.p.timers.recs ensures TimeoutTimer(s.calls, fibers', a, s.p.timers.recs[a]) {
      assert TimeoutTimer(s.calls, s.p.fl.fibers, a, s.p.timers.recs[a]);
      var cb := s.p.timers.recs[a].cb;
      if cb.Some? && cb.value.Timeout? {
        assert cb != Some(Timeout(c, cb.value.k));
      }
    }
  }

  /** Leaving the timed stretch once the timer is gone. */
  lemma GoChecked(s: State, i: nat)
    requires SysInv(s) && AtCall(s, i) && MyPc(s, i).IoWoken?
    requires forall a, k :: a in s.p.timers.recs ==> s.p.timers.recs[a].cb != Some(Timeout(MyCall(s, i), k))
    ensures SysInv(Go(s, i, IoCheck(MyCall(s, i))))
  {
    hide E.Inv, T.Inv, SlotsClean, FleetInv, TokenInv, InHand, CallsOk;
    RunningFits(s, i);
    var f, c := Me(s, i), MyCall(s, i);
    var x := s.p.fl.fibers[f].(pc := IoCheck(c));
    GotoKeeps(s.p.fl, i, f, IoCheck(c));
    CheckedLinks(s, c, f, x);
    FiberStepKeeps(s, f, x, Go(s, i, IoCheck(c)));
  }

  lemma IoGiveUpKeeps(s: State, i: nat)
    requires SysInv(s) && CanDisarm(s, i) && MyPc(s, i).IoFail?
    ensures SysInv(DoIoGiveUp(s, i))
  {
    assert T.Inv(s.p.timers);
    hide SysInv;
    DisarmKeeps(s, i);
    ReturnKeeps(Disarmed(s, MyCall(s, i)), i, Refused);
  }

  lemma IoReadFlagKeeps(s: State, i: nat)
    requires SysInv(s) && AtCall(s, i) && MyPc(s, i).IoCheck?
    ensures SysInv(DoIoReadFlag(s, i))
  {
    NoTimerOutside(s, i);
    var c := MyCall(s, i);
    if s.calls[c].cancelled.Some? {
      ReturnKeeps(s, i, TimedOut);
    } else {
      GoInside(s, i, IoTry(c));
      ForgetTimerKeeps(Go(s, i, IoTry(c)), c);
    }
  }

  /** `timer` goes out of scope at `retry`. */
  lemma ForgetTimerKeeps(s: State, c: nat)
    requires SysInv(s) && c < |s.calls|
    requires forall a, k :: a in s.p.timers.recs ==> s.p.timers.recs[a].cb != Some(Timeout(c, k))
    ensures SysInv(SetCall(s, c, s.calls[c].(timer := None)))
  {
    hide E.Inv, T.Inv, SlotsClean, FleetInv, InHand, TokenInv;
    var s' := SetCall(s, c, s.calls[c].(timer := None));
    InHandGrows(s.p.queue, s.p.fl, s.calls, s.clock, s.rolled, s'.calls, s.clock, s.rolled);
    forall a | a in s.p.timers.recs ensures TimeoutTimer(s'.calls, s.p.fl.fibers, a, s.p.timers.recs[a]) {
      assert TimeoutTimer(s.calls, s.p.fl.fibers, a, s.p.timers.recs[a]);
      var cb := s.p.timers.recs[a].cb;
      if cb.Some? && cb.value.Timeout? {
        assert cb != Some(Timeout(c, cb.value.k));
      }
    }
    forall d | 0 <= d < |s'.calls| ensures OwnTimer(s.p.timers.recs, d, s'.calls[d]) {
      assert OwnTimer(s.p.timers.recs, d, s.calls[d]);
    }
    assert CallOk(s.calls[c], s.clock, s.rolled);
  }

  // ---------------------------------------------------------------- sleep

  /** The sleep timer carries the fiber's token. */
  lemma SleepStartKeeps(s: State, i: nat, a: nat, born: T.u64, ms: T.u64)
    requires SysInv(s) && CanSleep(s, i, a, born)
    ensures SysInv(DoSleepStart(s, i, a, born, ms))
  {
    hide T.Add;
    hide E.Inv, T.Inv, SlotsClean, FleetInv, Links, TimerLinks, TokenInv, CallsOk;
    RunningFits(s, i);
    var f := Me(s, i);
    var x := s.p.fl.fibers[f].(pc := SleepYield);
    var s' := DoSleepStart(s, i, a, born, ms);
    GotoKeeps(s.p.fl, i, f, SleepYield);
    T.AddIntegrity(s.p.timers, a, born, ms, Wake(f), false);
    MoveOutside(s.calls, s.p.fl.fibers, s.p.timers.recs, f, x);
    ForeignTimer(s.calls, s'.p.fl.fibers, s.p.timers.recs, a, s'.p.timers.recs[a]);
    SleepTokens(s.p, f, x, a, born, ms, s'.p);
  }

  lemma SleepTokens(p: Places, f: FiberId, x: Fiber, a: nat, born: T.u64, ms: T.u64, p': Places)
    requires TokenInv(p) && T.Inv(p.timers) && a !in p.timers.recs
    requires f < |p.fl.fibers| && p.fl.fibers[f].pc.Code? && x.pc.SleepYield?
    requires p'.fl.fibers == p.fl.fibers[f := x] && p'.fl.workers == p.fl.workers
    requires p'.queue == p.queue && p'.table == p.table
    requires p'.timers == T.Add(p.timers, a, born, ms, Wake(f), false).0
    ensures TokenInv(p')
  {
    hide T.Add, T.Inv;
    forall g: FiberId ensures Held(p', g) == Owed(p'.fl.fibers, g) {
      assert Held(p, g) == Owed(p.fl.fibers, g);
      SumUpdate(p.fl.fibers, f, x, InFiber(g));
      AddWeight(p.timers, a, born, ms, Wake(f), false, Wakes(g));
    }
  }

  /** A new timer that belongs to no call leaves the links intact. */
  lemma ForeignTimer(calls: seq<Call>, fibers: seq<Fiber>, recs: T.Records, a: nat, r: T.TimerRec)
    requires TimerLinks(calls, fibers, recs) && a !in recs
    requires r.cb.Some? && !r.cb.value.Timeout? && (r.recurring ==> r.cb.value.User?)
    ensures TimerLinks(calls, fibers, recs[a := r])
  {
    var recs' := recs[a := r];
    forall c | 0 <= c < |calls| ensures OwnTimer(recs', c, calls[c]) {
      assert OwnTimer(recs, c, calls[c]);
    }
    forall b | b in recs' ensures TimeoutTimer(calls, fibers, b, recs'[b]) {
      assert b != a ==> TimeoutTimer(calls, fibers, b, recs[b]);
    }
  }
}
