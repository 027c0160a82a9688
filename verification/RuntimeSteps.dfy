/** Every action of the runtime keeps the system invariant. */
module RuntimeSteps {
  import opened Common
  import opened Sums
  import opened Fleet
  import opened Tokens
  import opened TimerWeights
  import opened Runtime
  import T = TimerSpec
  import E = EventSpec
  import QS = QueueSpec

  // ---------------------------------------------------------------- pieces of the call invariant

  /** Calls keep their timeouts and extend their arming history. */
  ghost predicate Grown(calls: seq<Call>, calls': seq<Call>) {
    && |calls| <= |calls'|
    && forall c :: 0 <= c < |calls| ==> calls'[c].to == calls[c].to && calls[c].arms <= calls'[c].arms
  }

  lemma CbGrows(cb: Callback, calls: seq<Call>, clock: T.u64, rolled: bool, calls': seq<Call>, clock': T.u64, rolled': bool)
    requires CbOk(cb, calls, clock, rolled) && Grown(calls, calls') && clock <= clock' && (rolled ==> rolled')
    ensures CbOk(cb, calls', clock', rolled')
  {}

  /** What is in hand stays in order as time passes and calls go on. */
  lemma InHandGrows(queue: seq<Entry>, fl: Fleet, calls: seq<Call>, clock: T.u64, rolled: bool, calls': seq<Call>, clock': T.u64, rolled': bool)
    requires InHand(queue, fl, calls, clock, rolled) && Grown(calls, calls') && clock <= clock' && (rolled ==> rolled')
    ensures InHand(queue, fl, calls', clock', rolled')
  {
    forall cb: Callback | CbOk(cb, calls, clock, rolled) ensures CbOk(cb, calls', clock', rolled') {
      CbGrows(cb, calls, clock, rolled, calls', clock', rolled');
    }
    hide CbOk;
    forall i | 0 <= i < |fl.workers| ensures WorkerOk(fl.workers[i], calls', clock', rolled') {
      assert WorkerOk(fl.workers[i], calls, clock, rolled);
    }
    forall f | 0 <= f < |fl.fibers| ensures FiberOk(fl.fibers[f], calls', clock', rolled') {
      assert FiberOk(fl.fibers[f], calls, clock, rolled);
    }
  }

  /** A fiber outside any call moves to another point outside any call. */
  lemma MoveOutside(calls: seq<Call>, fibers: seq<Fiber>, recs: T.Records, f: FiberId, x: Fiber)
    requires Links(calls, fibers) && TimerLinks(calls, fibers, recs) && f < |fibers|
    requires InCall(fibers[f].pc).None? && InCall(x.pc).None? && (x.pc.Cancelling? ==> x.pc.c < |calls|)
    ensures Links(calls, fibers[f := x]) && TimerLinks(calls, fibers[f := x], recs)
  {
    forall a | a in recs ensures TimeoutTimer(calls, fibers[f := x], a, recs[a]) {
      assert TimeoutTimer(calls, fibers, a, recs[a]);
    }
  }

  /** A fiber moves within its call. */
  lemma MoveInside(calls: seq<Call>, fibers: seq<Fiber>, recs: T.Records, f: FiberId, x: Fiber)
    requires Links(calls, fibers) && TimerLinks(calls, fibers, recs) && f < |fibers|
    requires InCall(fibers[f].pc).Some? && InCall(x.pc) == InCall(fibers[f].pc)
    requires MayHaveTimer(fibers[f].pc) ==> MayHaveTimer(x.pc)
    ensures Links(calls, fibers[f := x]) && TimerLinks(calls, fibers[f := x], recs)
  {
    forall a | a in recs ensures TimeoutTimer(calls, fibers[f := x], a, recs[a]) {
      assert TimeoutTimer(calls, fibers, a, recs[a]);
    }
  }

  /** Adding a fiber that is in no call. */
  lemma AppendFiber(calls: seq<Call>, fibers: seq<Fiber>, recs: T.Records, x: Fiber)
    requires Links(calls, fibers) && TimerLinks(calls, fibers, recs)
    requires InCall(x.pc).None? && !x.pc.Cancelling?
    ensures Links(calls, fibers + [x]) && TimerLinks(calls, fibers + [x], recs)
  {
    forall a | a in recs ensures TimeoutTimer(calls, fibers + [x], a, recs[a]) {
      assert TimeoutTimer(calls, fibers, a, recs[a]);
    }
  }

  // ---------------------------------------------------------------- pieces of the token count

  /** The count after one worker and one fiber changed. */
  lemma PairTokens(p: Places, i: nat, w: Worker, f: FiberId, x: Fiber, p': Places)
    requires i < |p.fl.workers| && f <= |p.fl.fibers|
    requires p'.fl.workers == p.fl.workers[i := w]
    requires p'.fl.fibers == if f < |p.fl.fibers| then p.fl.fibers[f := x] else p.fl.fibers + [x]
    requires p'.queue == p.queue && p'.table == p.table && p'.timers == p.timers
    ensures forall g: FiberId :: Held(p', g) == Held(p, g) - InWorker(g)(p.fl.workers[i]) + InWorker(g)(w)
                                        - (if f < |p.fl.fibers| then InFiber(g)(p.fl.fibers[f]) else 0) + InFiber(g)(x)
  {
    forall g: FiberId
      ensures Held(p', g) == Held(p, g) - InWorker(g)(p.fl.workers[i]) + InWorker(g)(w)
                               - (if f < |p.fl.fibers| then InFiber(g)(p.fl.fibers[f]) else 0) + InFiber(g)(x)
    {
      FleetMove(p.fl, i, w, f, x, p'.fl, g);
    }
  }

  /** The count after one worker changed. */
  lemma WorkerTokens(p: Places, i: nat, w: Worker, p': Places)
    requires i < |p.fl.workers| && p'.fl.workers == p.fl.workers[i := w] && p'.fl.fibers == p.fl.fibers
    requires p'.queue == p.queue && p'.table == p.table && p'.timers == p.timers
    ensures forall g: FiberId :: Held(p', g) == Held(p, g) - InWorker(g)(p.fl.workers[i]) + InWorker(g)(w)
  {
    forall g: FiberId ensures Held(p', g) == Held(p, g) - InWorker(g)(p.fl.workers[i]) + InWorker(g)(w) {
      SumUpdate(p.fl.workers, i, w, InWorker(g));
    }
  }

  // ---------------------------------------------------------------- the run loop

  /** A worker moves without touching fibers, queue, timers or table, and neither drops nor gains a token. */
  lemma WorkerMoveKeeps(s: State, i: nat, w: Worker)
    requires SysInv(s) && i < |s.p.fl.workers| && !PcAt(s, i).Inside?
    requires forall g :: Refers(w, g) ==> Refers(s.p.fl.workers[i], g)
    requires WorkerFits(w, s.p.fl.fibers) && WorkerOk(w, s.calls, s.clock, s.rolled)
    requires forall g: FiberId :: InWorker(g)(w) == InWorker(g)(s.p.fl.workers[i])
    ensures SysInv(MoveWorker(s, i, w))
  {
    hide Held, E.Inv, T.Inv, SlotsClean, Links, TimerLinks;
    var s' := MoveWorker(s, i, w);
    WorkerGotoKeeps(s.p.fl, i, w);
    WorkerTokens(s.p, i, w, s'.p);
  }

  lemma CountKeeps(s: State, i: nat)
    requires SysInv(s) && CanCount(s, i)
    ensures SysInv(DoCount(s, i))
  {
    assert WorkerFits(s.p.fl.workers[i], s.p.fl.fibers);
    WorkerMoveKeeps(s, i, DoCount(s, i).p.fl.workers[i]);
  }

  lemma UncountKeeps(s: State, i: nat)
    requires SysInv(s) && CanUncount(s, i)
    ensures SysInv(DoUncount(s, i))
  {
    assert WorkerFits(s.p.fl.workers[i], s.p.fl.fibers);
    WorkerMoveKeeps(s, i, DoUncount(s, i).p.fl.workers[i]);
  }

  lemma LeaveWaitKeeps(s: State, i: nat)
    requires SysInv(s) && (CanLeaveWait(s, i) || CanLeaveIdle(s, i))
    ensures SysInv(MoveWorker(s, i, s.p.fl.workers[i].(pc := IdleOut)))
    ensures SysInv(MoveWorker(s, i, s.p.fl.workers[i].(pc := Head)))
  {
    assert WorkerFits(s.p.fl.workers[i], s.p.fl.fibers);
    WorkerMoveKeeps(s, i, s.p.fl.workers[i].(pc := IdleOut));
    WorkerMoveKeeps(s, i, s.p.fl.workers[i].(pc := Head));
  }

  lemma UntickledKeeps(s: State)
    requires SysInv(s)
    ensures SysInv(s.(p := s.p.(timers := s.p.timers.(tickled := false))))
  {
    hide FleetInv, E.Inv, SlotsClean, Links, InHand;
    var s1 := s.(p := s.p.(timers := s.p.timers.(tickled := false)));
    forall g: FiberId ensures Held(s1.p, g) == Owed(s1.p.fl.fibers, g) {
      assert Held(s.p, g) == Owed(s.p.fl.fibers, g);
    }
  }

  lemma AskingFits(s: State, i: nat)
    requires FleetInv(s.p.fl) && CanAskStop(s, i)
    ensures WorkerFits(DoAskStop(s, i).p.fl.workers[i], s.p.fl.fibers)
  {
    assert WorkerFits(s.p.fl.workers[i], s.p.fl.fibers);
    hide FleetInv, Stopping, InFlight;
  }

  lemma AskStopKeeps(s: State, i: nat)
    requires SysInv(s) && CanAskStop(s, i)
    ensures SysInv(DoAskStop(s, i))
  {
    hide FleetInv, TokenInv, E.Inv, T.Inv, SlotsClean, Links, TimerLinks, InHand, CallsOk, Stopping, InFlight;
    var s1 := s.(p := s.p.(timers := s.p.timers.(tickled := false)));
    UntickledKeeps(s);
    AskingFits(s, i);
    WorkerMoveKeeps(s1, i, DoAskStop(s, i).p.fl.workers[i]);
  }

  /** Taking an entry moves its token from the queue to the worker's hand. */
  lemma ScanKeeps(s: State, i: nat)
    requires SysInv(s) && i < |s.p.fl.workers| && PcAt(s, i).Head?
    ensures SysInv(DoScan(s, i))
  {
    hide QS.Scan, QS.Eligible;
    var w := s.p.fl.workers[i];
    assert WorkerFits(w, s.p.fl.fibers);
    var n := QS.Scan(s.p.queue, i, ExecSet(s.p.fl.fibers)).0;
    if n < |s.p.queue| {
      TakeEntryKeeps(s, i, n);
    } else {
      WorkerMoveKeeps(s, i, w.(pc := if w.idleDone then Exited else IdleCheck));
    }
  }

  /** The entry that the scan takes is not a fiber that any worker has a hand on. */
  lemma TakenIsFree(s: State, i: nat, n: nat)
    requires SysInv(s)
    requires n == QS.Scan(s.p.queue, i, ExecSet(s.p.fl.fibers)).0 < |s.p.queue|
    ensures var x := s.p.queue[n].content;
            x.FiberOf? ==>
              Enterable(s.p.fl.fibers, x.f) && forall j :: 0 <= j < |s.p.fl.workers| ==> !Refers(s.p.fl.workers[j], x.f)
  {
    hide E.Inv, T.Inv, CallInv;
    var e := s.p.queue[n];
    QS.ScanExact(s.p.queue, i, ExecSet(s.p.fl.fibers));
    assert QS.Eligible(e, i, ExecSet(s.p.fl.fibers));
    if e.content.FiberOf? {
      QueuedFiberIsFree(s.p, n, e.content.f);
      assert s.p.fl.fibers[e.content.f].state != EXEC;
    }
  }

  lemma TakeEntryKeeps(s: State, i: nat, n: nat)
    requires SysInv(s) && i < |s.p.fl.workers| && PcAt(s, i).Head?
    requires n == QS.Scan(s.p.queue, i, ExecSet(s.p.fl.fibers)).0 < |s.p.queue|
    ensures SysInv(DoScan(s, i))
  {
    hide QS.Scan, QS.Eligible, ExecSet, E.Inv, T.Inv, SlotsClean, Links, TimerLinks;
    var e := s.p.queue[n];
    TakenIsFree(s, i, n);
    TakeKeeps(s.p.fl, i, e);
    var s' := DoScan(s, i);
    assert TokenInv(s'.p) by {
      TakeTokens(s, i, n, s');
    }
    assert InHand(s'.p.queue, s'.p.fl, s.calls, s.clock, s.rolled) by {
      assert EntryOk(e, s.calls, s.clock, s.rolled);
    }
  }

  lemma TakeTokens(s: State, i: nat, n: nat, s': State)
    requires TokenInv(s.p) && i < |s.p.fl.workers| && PcAt(s, i).Head? && n < |s.p.queue|
    requires s' == MoveWorker(s.(p := s.p.(queue := QS.Remove(s.p.queue, n))), i,
                              s.p.fl.workers[i].(pc := Took(s.p.queue[n])))
    ensures TokenInv(s'.p)
  {
    var s1 := s.(p := s.p.(queue := QS.Remove(s.p.queue, n)));
    WorkerTokens(s1.p, i, s'.p.fl.workers[i], s'.p);
    forall g: FiberId ensures Held(s'.p, g) == Owed(s'.p.fl.fibers, g) {
      SumRemove(s.p.queue, n, InEntry(g));
      assert Held(s.p, g) == Owed(s.p.fl.fibers, g);
    }
  }

  /** The spare fiber, and what it becomes. */
  function Spare(s: State, i: nat): (FiberId, Fiber)
    requires CanLoad(s, i)
  {
    var w := s.p.fl.workers[i];
    (if w.cbFiber.Some? then w.cbFiber.value else |s.p.fl.fibers|, Fiber(INIT, Loaded(w.pc.e.content.cb)))
  }

  lemma LoadTokens(s: State, i: nat)
    requires FleetInv(s.p.fl) && TokenInv(s.p) && CanLoad(s, i)
    ensures TokenInv(DoLoad(s, i).p)
  {
    hide Held;
    var s' := DoLoad(s, i);
    var (f, x) := Spare(s, i);
    assert WorkerFits(s.p.fl.workers[i], s.p.fl.fibers);
    PairTokens(s.p, i, s'.p.fl.workers[i], f, x, s'.p);
    forall g: FiberId ensures Held(s'.p, g) == Owed(s'.p.fl.fibers, g) {
      assert Held(s.p, g) == Owed(s.p.fl.fibers, g);
    }
  }

  lemma LoadLinks(s: State, i: nat)
    requires FleetInv(s.p.fl) && Links(s.calls, s.p.fl.fibers) && TimerLinks(s.calls, s.p.fl.fibers, s.p.timers.recs) && CanLoad(s, i)
    ensures var s' := DoLoad(s, i);
            Links(s.calls, s'.p.fl.fibers) && TimerLinks(s.calls, s'.p.fl.fibers, s.p.timers.recs)
  {
    var (f, x) := Spare(s, i);
    assert WorkerFits(s.p.fl.workers[i], s.p.fl.fibers);
    hide Links, TimerLinks, FleetInv;
    if s.p.fl.workers[i].cbFiber.Some? {
      MoveOutside(s.calls, s.p.fl.fibers, s.p.timers.recs, f, x);
    } else {
      AppendFiber(s.calls, s.p.fl.fibers, s.p.timers.recs, x);
    }
  }

  lemma LoadHand(s: State, i: nat)
    requires FleetInv(s.p.fl) && CanLoad(s, i) && InHand(s.p.queue, s.p.fl, s.calls, s.clock, s.rolled)
    ensures InHand(s.p.queue, DoLoad(s, i).p.fl, s.calls, s.clock, s.rolled)
  {
    assert WorkerFits(s.p.fl.workers[i], s.p.fl.fibers) && WorkerOk(s.p.fl.workers[i], s.calls, s.clock, s.rolled);
    hide CbOk, FleetInv;
  }

  lemma LoadKeeps(s: State, i: nat)
    requires SysInv(s) && CanLoad(s, i)
    ensures SysInv(DoLoad(s, i))
  {
    hide E.Inv, T.Inv, SlotsClean, FleetInv, TokenInv, Links, TimerLinks, InHand, CallsOk;
    LoadCallbackKeeps(s.p.fl, i, s.p.fl.workers[i].pc.e.content.cb);
    LoadTokens(s, i);
    LoadLinks(s, i);
    LoadHand(s, i);
  }

  lemma EnterTokens(s: State, i: nat)
    requires FleetInv(s.p.fl) && TokenInv(s.p) && CanEnter(s, i)
    ensures TokenInv(DoEnter(s, i).p)
  {
    hide Held;
    var w := s.p.fl.workers[i];
    var s' := DoEnter(s, i);
    assert WorkerFits(w, s.p.fl.fibers);
    PairTokens(s.p, i, s'.p.fl.workers[i], w.pc.f, s'.p.fl.fibers[w.pc.f], s'.p);
    forall g: FiberId ensures Held(s'.p, g) == Owed(s'.p.fl.fibers, g) {
      assert Held(s.p, g) == Owed(s.p.fl.fibers, g);
    }
  }

  lemma EnterLinks(s: State, i: nat)
    requires FleetInv(s.p.fl) && Links(s.calls, s.p.fl.fibers) && TimerLinks(s.calls, s.p.fl.fibers, s.p.timers.recs) && CanEnter(s, i)
    ensures var s' := DoEnter(s, i);
            Links(s.calls, s'.p.fl.fibers) && TimerLinks(s.calls, s'.p.fl.fibers, s.p.timers.recs)
  {
    var f := s.p.fl.workers[i].pc.f;
    var x := DoEnter(s, i).p.fl.fibers[f];
    assert WorkerFits(s.p.fl.workers[i], s.p.fl.fibers);
    hide Links, TimerLinks, FleetInv;
    if InCall(s.p.fl.fibers[f].pc).Some? {
      MoveInside(s.calls, s.p.fl.fibers, s.p.timers.recs, f, x);
    } else {
      MoveOutside(s.calls, s.p.fl.fibers, s.p.timers.recs, f, x);
    }
  }

  lemma EnterHand(s: State, i: nat)
    requires FleetInv(s.p.fl) && CanEnter(s, i) && InHand(s.p.queue, s.p.fl, s.calls, s.clock, s.rolled)
    ensures InHand(s.p.queue, DoEnter(s, i).p.fl, s.calls, s.clock, s.rolled)
  {
    assert WorkerFits(s.p.fl.workers[i], s.p.fl.fibers);
    assert FiberOk(s.p.fl.fibers[s.p.fl.workers[i].pc.f], s.calls, s.clock, s.rolled);
    hide CbOk, FleetInv;
  }

  lemma EnterKeeps(s: State, i: nat)
    requires SysInv(s) && CanEnter(s, i)
    ensures SysInv(DoEnter(s, i))
  {
    hide E.Inv, T.Inv, SlotsClean, FleetInv, TokenInv, Links, TimerLinks, InHand, CallsOk;
    SwapInKeeps(s.p.fl, i);
    EnterTokens(s, i);
    EnterLinks(s, i);
    EnterHand(s, i);
  }

  lemma SettleTokens(s: State, i: nat)
    requires FleetInv(s.p.fl) && TokenInv(s.p) && CanSettle(s, i)
    ensures TokenInv(DoSettle(s, i).p)
  {
    hide Held;
    var w := s.p.fl.workers[i];
    var s' := DoSettle(s, i);
    assert WorkerFits(w, s.p.fl.fibers) && StateFits(s.p.fl.fibers[w.pc.f]);
    PairTokens(s.p, i, s'.p.fl.workers[i], w.pc.f, s'.p.fl.fibers[w.pc.f], s'.p);
    forall g: FiberId ensures Held(s'.p, g) == Owed(s'.p.fl.fibers, g) {
      assert Held(s.p, g) == Owed(s.p.fl.fibers, g);
    }
  }

  lemma SettleLinks(s: State, i: nat)
    requires FleetInv(s.p.fl) && Links(s.calls, s.p.fl.fibers) && TimerLinks(s.calls, s.p.fl.fibers, s.p.timers.recs) && CanSettle(s, i)
    ensures var s' := DoSettle(s, i);
            Links(s.calls, s'.p.fl.fibers) && TimerLinks(s.calls, s'.p.fl.fibers, s.p.timers.recs)
  {
    var w := s.p.fl.workers[i];
    var f := w.pc.f;
    var x := DoSettle(s, i).p.fl.fibers[f];
    assert WorkerFits(w, s.p.fl.fibers) && StateFits(s.p.fl.fibers[f]);
    hide Links, TimerLinks, FleetInv;
    if InCall(s.p.fl.fibers[f].pc).Some? {
      MoveInside(s.calls, s.p.fl.fibers, s.p.timers.recs, f, x);
    } else {
      MoveOutside(s.calls, s.p.fl.fibers, s.p.timers.recs, f, x);
    }
  }

  lemma SettleKeepsSys(s: State, i: nat)
    requires SysInv(s) && CanSettle(s, i)
    ensures SysInv(DoSettle(s, i))
  {
    hide E.Inv, T.Inv, SlotsClean, FleetInv, TokenInv, Links, TimerLinks;
    SettleKeeps(s.p.fl, i);
    SettleTokens(s, i);
    SettleLinks(s, i);
  }

  // ---------------------------------------------------------------- the idle loop

  lemma {:induction false} UnpinnedAt(xs: seq<Content>)
    ensures |Unpinned(xs)| == |xs| && forall n :: 0 <= n < |xs| ==> Unpinned(xs)[n] == Entry(xs[n], -1)
  {
    if xs != [] { UnpinnedAt(xs[1..]); }
  }

  lemma {:induction false} CallsAt(cbs: seq<Callback>)
    ensures forall n :: 0 <= n < |cbs| ==> Calls(cbs)[n] == CallbackOf(cbs[n])
  {
    if cbs != [] {
      CallsAt(cbs[1..]);
      assert Calls(cbs)[1..] == Calls(cbs[1..]);
    }
  }

  /** A table operation never moves a timeout closure or a sleep closure into or out of the slots. */
  lemma SlotsStayClean(t: E.Table, r: E.Result, accepted: seq<Content>)
    requires SlotsClean(t) && r.Done? && E.Kept(t, r, accepted)
    requires forall cb: Callback :: !cb.User? ==> E.Occurs(accepted, CallbackOf(cb)) == 0
    ensures SlotsClean(r.table)
    ensures forall cb: Callback :: !cb.User? ==> E.Occurs(r.woken, CallbackOf(cb)) == 0 && E.Occurs(r.dropped, CallbackOf(cb)) == 0
    ensures forall n :: 0 <= n < |r.woken| && r.woken[n].CallbackOf? ==> r.woken[n].cb.User?
  {
    hide E.Inv;
    forall cb: Callback | !cb.User?
      ensures E.Waiting(r.table, CallbackOf(cb)) == 0
              && E.Occurs(r.woken, CallbackOf(cb)) == 0 && E.Occurs(r.dropped, CallbackOf(cb)) == 0
    {
      var x := CallbackOf(cb);
      WaitingNonNegative(r.table, x);
      SumNonNegative(r.woken, E.Same(x));
      SumNonNegative(r.dropped, E.Same(x));
      assert E.Waiting(t, x) == 0;
    }
    forall n | 0 <= n < |r.woken| && r.woken[n].CallbackOf? ensures r.woken[n].cb.User? {
      SumAtLeast(r.woken, n, E.Same(r.woken[n]));
      assert E.Occurs(r.woken, r.woken[n]) >= 1;
    }
  }

  /** A table operation that accepts and drops no fiber keeps the invariant: what it takes out of the
      slots goes to the queue. */
  lemma WokenKeeps(s: State, r: E.Result, accepted: seq<Content>)
    requires SysInv(s) && r.Done? && E.Kept(s.p.table, r, accepted)
    requires forall f: FiberId :: E.Occurs(accepted, FiberOf(f)) == 0 && E.Occurs(r.dropped, FiberOf(f)) == 0
    requires forall cb: Callback :: !cb.User? ==> E.Occurs(accepted, CallbackOf(cb)) == 0
    ensures SysInv(Woken(s, r))
  {
    SlotsStayClean(s.p.table, r, accepted);
    UnpinnedAt(r.woken);
    var s' := Woken(s, r);
    assert TokenInv(s'.p) by {
      forall f: FiberId ensures Held(s'.p, f) == Owed(s'.p.fl.fibers, f) {
        assert Held(s.p, f) == Owed(s.p.fl.fibers, f);
        SumConcat(s.p.queue, Unpinned(r.woken), InEntry(f));
        UnpinnedTokens(r.woken, f);
      }
    }
    hide E.Inv, T.Inv, SlotsClean, FleetInv, Links, TimerLinks;
    assert E.Inv(r.table) by { KeptInv(s.p.table, r, accepted); }
  }

  lemma KeptInv(t: E.Table, r: E.Result, accepted: seq<Content>)
    requires r.Done? && E.Kept(t, r, accepted)
    ensures E.Inv(r.table)
  {}

  lemma DispatchKeepsSys(s: State, i: nat, granted: bool)
    requires SysInv(s) && CanDispatch(s, i, granted)
    ensures SysInv(DoDispatch(s, i, granted))
  {
    hide E.Dispatch, E.Kept, E.Inv, T.Inv, CallInv;
    var w := s.p.fl.workers[i];
    var r := E.Dispatch(s.p.table, w.pc.evs[0].0, w.pc.evs[0].1, granted);
    E.DispatchKeeps(s.p.table, w.pc.evs[0].0, w.pc.evs[0].1, granted);
    assert WorkerFits(w, s.p.fl.fibers);
    WokenKeeps(s, r, []);
    WorkerMoveKeeps(Woken(s, r), i, w.(pc := IdleDispatch(w.pc.evs[1..])));
  }

  /** Scheduling the expired callbacks moves their tokens from the worker's vector to the queue. */
  lemma ScheduleExpiredKeeps(s: State, i: nat)
    requires SysInv(s) && CanScheduleExpired(s, i)
    ensures SysInv(DoScheduleExpired(s, i))
  {
    var w := s.p.fl.workers[i];
    var w' := w.(pc := IdleDispatch(w.pc.evs));
    var s' := DoScheduleExpired(s, i);
    assert WorkerFits(w, s.p.fl.fibers) && WorkerOk(w, s.calls, s.clock, s.rolled);
    WorkerGotoKeeps(s.p.fl, i, w');
    UnpinnedAt(Calls(w.pc.cbs));
    CallsAt(w.pc.cbs);
    assert TokenInv(s'.p) by {
      var s1 := s.(p := s.p.(queue := s'.p.queue));
      WorkerTokens(s1.p, i, w', s'.p);
      forall f: FiberId ensures Held(s'.p, f) == Owed(s'.p.fl.fibers, f) {
        assert Held(s.p, f) == Owed(s.p.fl.fibers, f);
        SumConcat(s.p.queue, Unpinned(Calls(w.pc.cbs)), InEntry(f));
        CallsTokens(w.pc.cbs, f);
      }
    }
    hide E.Inv, T.Inv, SlotsClean, FleetInv, Links, TimerLinks;
  }

  /** Expiry keeps the timer links, and every callback it hands out is in order. */
  lemma ExpiryLinks(s: State, now: T.u64, probe: nat)
    requires T.Inv(s.p.timers) && TimerLinks(s.calls, s.p.fl.fibers, s.p.timers.recs) && now <= s.clock
    ensures var r := T.Expire(s.p.timers, now, probe);
            var rolled := s.rolled || (s.p.timers.armed != [] && T.Rollover(s.p.timers.prev, now));
            && T.Inv(r.0)
            && TimerLinks(s.calls, s.p.fl.fibers, r.0.recs)
            && (forall n :: 0 <= n < |r.1| ==> CbOk(r.1[n], s.calls, s.clock, rolled))
            && (forall f: FiberId :: Armed(r.0, Wakes(f)) + Sum(r.1, Wakes(f)) == Armed(s.p.timers, Wakes(f)))
  {
    hide T.Expire, T.Rollover;
    var q := s.p.timers;
    var r := T.Expire(q, now, probe);
    T.ExpireExact(q, now, probe);
    forall f: FiberId ensures Armed(r.0, Wakes(f)) + Sum(r.1, Wakes(f)) == Armed(q, Wakes(f)) {
      ExpireWeight(q, now, probe, Wakes(f));
    }
    forall n | 0 <= n < |r.1|
      ensures CbOk(r.1[n], s.calls, s.clock, s.rolled || (q.armed != [] && T.Rollover(q.prev, now)))
    {
      var a := q.armed[n];
      assert a in q.armed && T.Due(q, now, a) && TimeoutTimer(s.calls, s.p.fl.fibers, a, q.recs[a]);
    }
    forall a | a in r.0.recs ensures TimeoutTimer(s.calls, s.p.fl.fibers, a, r.0.recs[a]) {
      assert TimeoutTimer(s.calls, s.p.fl.fibers, a, q.recs[a]);
    }
    forall c | 0 <= c < |s.calls| ensures OwnTimer(r.0.recs, c, s.calls[c]) {
      assert OwnTimer(q.recs, c, s.calls[c]);
    }
  }

  /** Expired sleep closures move from the timer queue to the worker's vector. */
  lemma ExpiryTokens(p: Places, i: nat, q: T.Queue, cbs: seq<Callback>, evs: seq<(nat, E.Mask)>, p': Places)
    requires TokenInv(p) && i < |p.fl.workers| && p.fl.workers[i].pc.IdleWait?
    requires p' == p.(timers := q, fl := WorkerGoto(p.fl, i, p.fl.workers[i].(pc := IdleGot(cbs, evs))))
    requires forall f: FiberId :: Armed(q, Wakes(f)) + Sum(cbs, Wakes(f)) == Armed(p.timers, Wakes(f))
    ensures TokenInv(p')
  {
    WorkerTokens(p.(timers := q), i, p.fl.workers[i].(pc := IdleGot(cbs, evs)), p');
    forall f: FiberId ensures Held(p', f) == Owed(p'.fl.fibers, f) {
      assert Held(p, f) == Owed(p.fl.fibers, f);
    }
  }

  /** The clock flag may rise; what the worker now has in hand is in order. */
  lemma WaitHand(s: State, i: nat, now: T.u64, cbs: seq<Callback>, evs: seq<(nat, E.Mask)>, rolled: bool)
    requires SysInv(s) && i < |s.p.fl.workers| && (s.rolled ==> rolled)
    requires forall n :: 0 <= n < |cbs| ==> CbOk(cbs[n], s.calls, s.clock, rolled)
    ensures InHand(s.p.queue, WorkerGoto(s.p.fl, i, s.p.fl.workers[i].(pc := IdleGot(cbs, evs))), s.calls, s.clock, rolled)
    ensures CallsOk(s.calls, s.clock, rolled)
  {
    assert InHand(s.p.queue, s.p.fl, s.calls, s.clock, s.rolled) && CallsOk(s.calls, s.clock, s.rolled);
    hide SysInv, CbOk;
    InHandGrows(s.p.queue, s.p.fl, s.calls, s.clock, s.rolled, s.calls, s.clock, rolled);
  }

  lemma WaitKeeps(s: State, i: nat, now: T.u64, probe: nat, evs: seq<(nat, E.Mask)>)
    requires SysInv(s) && CanWait(s, i, now)
    ensures SysInv(DoWait(s, i, now, probe, evs))
  {
    var r := T.Expire(s.p.timers, now, probe);
    var w := s.p.fl.workers[i];
    var s' := DoWait(s, i, now, probe, evs);
    assert WorkerFits(w, s.p.fl.fibers);
    hide T.Expire, T.Rollover, T.Inv, E.Inv, SlotsClean, Links, TimerLinks, FleetInv, TokenInv, InHand, CallsOk, CbOk;
    ExpiryLinks(s, now, probe);
    WorkerGotoKeeps(s.p.fl, i, w.(pc := IdleGot(r.1, evs)));
    ExpiryTokens(s.p, i, r.0, r.1, evs, s'.p);
    WaitHand(s, i, now, r.1, evs, s'.rolled);
  }
}
