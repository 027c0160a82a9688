/** The timeouts of blocking calls over whole runs: where each one is, and exactly when a call is left in
    its wait without one. */
module TimeoutRuns {
  import opened Common
  import opened Sums
  import opened Fleet
  import opened Tokens
  import opened TimerWeights
  import opened Runtime
  import opened RuntimeRuns
  import opened RuntimeShapes
  import opened RuntimeTheorems
  import opened RuntimeTimeouts
  import opened TimeoutTokens
  import opened Hooks
  import T = TimerSpec
  import E = EventSpec
  import ER = EventRuns
  import EventSteps

  // ---------------------------------------------------------------- the invariant

  /** The call is in the stretch of `do_io` where its timer counts. */
  predicate Timed(s: State, c: nat) {
    && c < |s.calls| && s.calls[c].result.None? && s.calls[c].to.Some?
    && s.calls[c].fiber < |s.p.fl.fibers| && MayHaveTimer(s.p.fl.fibers[s.calls[c].fiber].pc)
  }

  /** A closure of the call stands between setting the flag and `cancelEvent`. */
  predicate CancellerOf(s: State, c: nat, g: FiberId) {
    g < |s.p.fl.fibers| && s.p.fl.fibers[g].pc == Cancelling(c)
  }

  ghost predicate TimeoutOf(s: State, c: nat)
    requires c < |s.calls|
  {
    && (forall g :: CancellerOf(s, c, g) ==> s.calls[c].cancelled.Some?)
    && (forall g, h :: CancellerOf(s, c, g) && CancellerOf(s, c, h) ==> g == h)
    && (Timed(s, c) && s.calls[c].cancelled.None? ==>
          |s.calls[c].arms| > 0 && Pending(s.p, c, |s.calls[c].arms| - 1) == 1)
  }

  ghost predicate TimeoutInv(s: State) {
    forall c :: 0 <= c < |s.calls| ==> TimeoutOf(s, c)
  }

  // ---------------------------------------------------------------- every action keeps it

  predicate ArmsBy(s: State, a: Action, c: nat, k: nat) {
    a.ByFiber? && CanFiber(s, a.i, a.f) && Arms(s, a.i, a.f, c, k)
  }

  /** The count after any action. */
  lemma PendingAfter(s: State, a: Action, c: nat, k: nat)
    requires SysInv(s) && Can(s, a)
    ensures Pending(Do(s, a).p, c, k)
         == Pending(s.p, c, k) + (if ArmsBy(s, a, c, k) then 1 else 0)
              - (if a.ByFiber? && Begins(s, a.i, a.f, c, k) then 1 else 0)
              - (if a.ByFiber? then Disarms(s, a.i, a.f, c, k) else 0)
  {
    match a {
      case ByWorker(i, w) => WorkersKeepPending(s, i, w, c, k);
      case ByFiber(i, f) => FibersChangePending(s, i, f, c, k);
      case ByUser(who, u) => UsersKeepPending(s, u, c, k);
      case Tick(_) =>
      case Stop =>
    }
    hide SysInv, DoWorker, DoFiber, DoUser, CanWorker, CanFiber, CanUser, Arms, Begins, Disarms, Armed, Sum;
  }

  /** A closure that begins for a live call with a clear flag sets it. */
  lemma BeginningSetsFlag(s: State, i: nat, a: FiberAct, c: nat, k: nat)
    requires SysInv(s) && CanFiber(s, i, a) && Begins(s, i, a, c, k) && s.calls[c].result.None?
    ensures c < |DoFiber(s, i, a).calls| && DoFiber(s, i, a).calls[c].cancelled.Some?
  {
    assert T.Inv(s.p.timers) && E.Inv(s.p.table);
    FiberShape(s, i, a);
    hide SysInv, T.Inv, E.Inv, DoFiber, NextPc, QueueAfter, TableAfter, TimersAfter, FleetAfter;
  }

  /** The timer that `do_io` cancels is its own, and the call leaves the timed stretch. */
  lemma DisarmsOwn(s: State, i: nat, a: FiberAct, c: nat, k: nat)
    requires SysInv(s) && CanFiber(s, i, a) && c < |s.calls| && Disarms(s, i, a, c, k) != 0
    ensures AtCall(s, i) && MyCall(s, i) == c
    ensures !MayHaveTimer(NextPc(s, i, a)) && !Leaves(a)
  {
    var d := MyCall(s, i);
    assert OwnTimer(s.p.timers.recs, d, s.calls[d]);
    hide SysInv;
  }

  lemma OnlyAgainIsReady(s: State, i: nat, a: FiberAct, c: nat)
    requires CanFiber(s, i, a) && NextPc(s, i, a) == IoReady(c)
    ensures a.IoAgain? && AtCall(s, i) && MyCall(s, i) == c
  {}

  lemma AgainArms(s: State, i: nat, a: FiberAct, c: nat)
    requires T.Inv(s.p.timers) && E.Inv(s.p.table) && CanFiber(s, i, a) && a.IoAgain? && MyCall(s, i) == c && c < |s.calls| && s.calls[c].to.Some?
    ensures Arms(s, i, a, c, |s.calls[c].arms|)
    ensures c < |DoFiber(s, i, a).calls| && |DoFiber(s, i, a).calls[c].arms| == |s.calls[c].arms| + 1
  {
    assert T.Inv(s.p.timers) && E.Inv(s.p.table);
    FiberShape(s, i, a);
    hide SysInv, T.Inv, E.Inv, DoFiber, NextPc, QueueAfter, TableAfter, TimersAfter, FleetAfter;
  }

  /** The position of fiber `f` after an action that is not its own. */
  lemma OthersLeaveOrResume(s: State, a: Action, f: FiberId)
    requires SysInv(s) && Can(s, a) && f < |s.p.fl.fibers| && InCall(s.p.fl.fibers[f].pc).Some?
    requires !(a.ByFiber? && Running(s, a.i) && Me(s, a.i) == f)
    ensures LeftOrResumed(s, f, Do(s, a))
  {
    assert T.Inv(s.p.timers) && E.Inv(s.p.table);
    hide SysInv, T.Inv, E.Inv, DoWorker, DoFiber, DoUser, CanWorker, CanFiber, CanUser;
    match a {
      case ByWorker(i, w) => WorkersResume(s, i, w, f);
      case ByFiber(i, x) => ActsFromWithin(s, i, x); FiberEffects(s, i, x);
      case ByUser(who, u) => UsersLeaveFibers(s, u, f);
      case Tick(_) =>
      case Stop =>
    }
  }

  /** A call becomes timed by arming its timer only. */
  lemma BecomesTimed(s: State, a: Action, c: nat)
    requires SysInv(s) && Can(s, a) && c < |s.calls| && !Timed(s, c) && Timed(Do(s, a), c)
    ensures ArmsBy(s, a, c, |s.calls[c].arms|)
    ensures |Do(s, a).calls[c].arms| == |s.calls[c].arms| + 1
  {
    var f := s.calls[c].fiber;
    ResultsAreOwn(s, a, c);
    LinkOf(s, c);
    assert T.Inv(s.p.timers) && E.Inv(s.p.table);
    if a.ByFiber? && Running(s, a.i) && Me(s, a.i) == f {
      CallsFollowTheProgram(s, a, f);
      FiberShape(s, a.i, a.f);
      hide SysInv, T.Inv, E.Inv, DoFiber, CanFiber, NextPc, CallsAfter, QueueAfter, TableAfter, TimersAfter, Cancelled;
      OnlyAgainIsReady(s, a.i, a.f, c);
      AgainArms(s, a.i, a.f, c);
    } else {
      OthersLeaveOrResume(s, a, f);
      hide SysInv, T.Inv, E.Inv, Do, Can;
    }
  }

  /** A new call has no timer yet. */
  lemma NewCallIsUntimed(s: State, a: Action, c: nat)
    requires T.Inv(s.p.timers) && E.Inv(s.p.table) && Can(s, a) && |s.calls| <= c < |Do(s, a).calls|
    ensures !Timed(Do(s, a), c)
  {
    assert T.Inv(s.p.timers) && E.Inv(s.p.table);
    hide SysInv, T.Inv, E.Inv, DoWorker, DoFiber, DoUser, CanWorker, CanFiber, CanUser, CallsAfter, NextPc, QueueAfter, TableAfter,
         TimersAfter, Cancelled, WorkersShape;
    match a {
      case ByWorker(i, w) => WorkerShape(s, i, w);
      case ByFiber(i, f) => ActsFromWithin(s, i, f); FiberShape(s, i, f); FreshCall(s, i, f, c);
      case ByUser(who, u) => UserShape(s, u);
      case Tick(_) =>
      case Stop =>
    }
  }

  lemma FreshCall(s: State, i: nat, a: FiberAct, c: nat)
    requires CanFiber(s, i, a) && Running(s, i) && |s.calls| <= c < |CallsAfter(s, i, a)|
    ensures c == |s.calls| && CallsAfter(s, i, a)[c].fiber == Me(s, i) && NextPc(s, i, a) == IoTry(c) && !Leaves(a)
  {}

  /** The cancelling closures of a call. */
  lemma CancellersKept(s: State, a: Action, c: nat)
    requires SysInv(s) && TimeoutInv(s) && Can(s, a) && c < |Do(s, a).calls|
    ensures var s' := Do(s, a);
            && (forall g :: CancellerOf(s', c, g) ==> s'.calls[c].cancelled.Some?)
            && (forall g, h :: CancellerOf(s', c, g) && CancellerOf(s', c, h) ==> g == h)
  {
    NoNewCancelBy(s, a);
    assert Links(s.calls, s.p.fl.fibers);
    if c < |s.calls| {
      assert TimeoutOf(s, c);
      if s.calls[c].cancelled.Some? {
        FlagsStaySet(s, a, c);
      }
    }
    hide SysInv, Do, Can;
    CancellersMove(s, a, Do(s, a), c);
  }

  lemma CancellersMove(s: State, a: Action, s': State, c: nat)
    requires NoNewCancel(s, a, s') && Links(s.calls, s.p.fl.fibers) && c < |s'.calls|
    requires c < |s.calls| ==> TimeoutOf(s, c) && (s.calls[c].cancelled.Some? ==> s'.calls[c].cancelled.Some?)
    ensures forall g :: CancellerOf(s', c, g) ==> s'.calls[c].cancelled.Some?
    ensures forall g, h :: CancellerOf(s', c, g) && CancellerOf(s', c, h) ==> g == h
  {
    hide Timed, Pending;
    forall g: FiberId | CancellerOf(s', c, g)
      ensures c < |s.calls| && s'.calls[c].cancelled.Some?
      ensures (CancellerOf(s, c, g) && s.calls[c].cancelled.Some?)
              || (s.calls[c].cancelled.None? && a.ByFiber? && CanBeginTimeout(s, a.i) && g == Me(s, a.i))
    {
      assert CancelFrom(s, a, s', g);
      if g < |s.p.fl.fibers| && s.p.fl.fibers[g].pc == s'.p.fl.fibers[g].pc {
        assert s.p.fl.fibers[g].pc.Cancelling? && c < |s.calls|;
        assert CancellerOf(s, c, g);
      } else {
        assert s'.p.fl.fibers[g].pc == Cancelling(MyPc(s, a.i).cb.call);
      }
    }
  }

  /** The latest timer of a call that stays timed with a clear flag. */
  lemma StillPending(s: State, a: Action, c: nat)
    requires SysInv(s) && TimeoutInv(s) && Can(s, a) && c < |s.calls| && Timed(s, c) && Timed(Do(s, a), c)
    requires Do(s, a).calls[c].cancelled.None?
    ensures |Do(s, a).calls[c].arms| == |s.calls[c].arms| > 0
    ensures Pending(Do(s, a).p, c, |s.calls[c].arms| - 1) == 1
  {
    var k := |s.calls[c].arms| - 1;
    assert TimeoutOf(s, c);
    if s.calls[c].cancelled.Some? {
      FlagsStaySet(s, a, c);
    }
    PendingAfter(s, a, c, k);
    ArmsStay(s, a, c);
    if a.ByFiber? {
      if Begins(s, a.i, a.f, c, k) {
        BeginningSetsFlag(s, a.i, a.f, c, k);
      }
      if Disarms(s, a.i, a.f, c, k) != 0 {
        DisarmsOwn(s, a.i, a.f, c, k);
        LeavesTimed(s, a.i, a.f, c);
      }
    }
    hide SysInv, TimeoutInv, Do, Can, CanFiber, Pending, Timed, Begins, Disarms, Arms;
  }

  /** Inside the timed stretch no timer is armed. */
  lemma ArmsStay(s: State, a: Action, c: nat)
    requires SysInv(s) && Can(s, a) && Timed(s, c)
    ensures c < |Do(s, a).calls| && |Do(s, a).calls[c].arms| == |s.calls[c].arms|
    ensures forall k :: !ArmsBy(s, a, c, k)
  {
    assert T.Inv(s.p.timers) && E.Inv(s.p.table);
    LinkOf(s, c);
    match a {
      case ByWorker(i, w) => WorkerShape(s, i, w);
      case ByFiber(i, f) =>
        ActsFromWithin(s, i, f);
        if InCall(MyPc(s, i)).Some? { RunningInCall(s, i); }
        FiberShape(s, i, f);
        TimedArms(s, i, f, c);
      case ByUser(who, u) => UserShape(s, u);
      case Tick(_) =>
      case Stop =>
    }
    hide SysInv, T.Inv, E.Inv, DoWorker, DoFiber, DoUser, CanWorker, CanFiber, CanUser, CallsAfter, NextPc, QueueAfter, TableAfter,
         TimersAfter, Cancelled, WorkerAfter, Touched, WorkersQueue, WorkersTable, WorkersTimers, FleetAfter, Arms;
  }

  lemma RunningInCall(s: State, i: nat)
    requires SysInv(s) && Running(s, i) && InCall(MyPc(s, i)).Some?
    ensures AtCall(s, i) && s.calls[MyCall(s, i)].fiber == Me(s, i)
  {}

  lemma TimedArms(s: State, i: nat, a: FiberAct, c: nat)
    requires CanFiber(s, i, a) && Running(s, i) && Timed(s, c) && InCall(s.p.fl.fibers[s.calls[c].fiber].pc) == Some(c)
    requires InCall(MyPc(s, i)).Some? ==> AtCall(s, i) && s.calls[MyCall(s, i)].fiber == Me(s, i)
    ensures c < |CallsAfter(s, i, a)| && |CallsAfter(s, i, a)[c].arms| == |s.calls[c].arms|
    ensures forall k :: !Arms(s, i, a, c, k)
  {}

  lemma LeavesTimed(s: State, i: nat, a: FiberAct, c: nat)
    requires SysInv(s) && CanFiber(s, i, a) && AtCall(s, i) && MyCall(s, i) == c && !MayHaveTimer(NextPc(s, i, a)) && !Leaves(a)
    ensures !Timed(DoFiber(s, i, a), c)
  {
    assert T.Inv(s.p.timers) && E.Inv(s.p.table);
    RunningInCall(s, i);
    FiberShape(s, i, a);
    FibersOwnCalls(s, i, a, c);
    hide SysInv, T.Inv, E.Inv, DoFiber, CanFiber, NextPc, CallsAfter, QueueAfter, TableAfter, TimersAfter, Cancelled;
  }

  lemma TimeoutOfKept(s: State, a: Action, c: nat)
    requires SysInv(s) && TimeoutInv(s) && Can(s, a) && c < |Do(s, a).calls|
    ensures TimeoutOf(Do(s, a), c)
  {
    CancellersKept(s, a, c);
    TimedAfter(s, a, c);
    hide SysInv, TimeoutInv, Do, Can, Timed, Pending, CancellerOf;
  }

  lemma TimedAfter(s: State, a: Action, c: nat)
    requires SysInv(s) && TimeoutInv(s) && Can(s, a) && c < |Do(s, a).calls|
    ensures var s' := Do(s, a);
            Timed(s', c) && s'.calls[c].cancelled.None? ==>
              |s'.calls[c].arms| > 0 && Pending(s'.p, c, |s'.calls[c].arms| - 1) == 1
  {
    assert T.Inv(s.p.timers) && E.Inv(s.p.table);
    hide SysInv, T.Inv, E.Inv, TimeoutInv, Do, Can, Timed, Pending;
    if Timed(Do(s, a), c) && Do(s, a).calls[c].cancelled.None? {
      if c >= |s.calls| {
        NewCallIsUntimed(s, a, c);
      } else if Timed(s, c) {
        StillPending(s, a, c);
      } else {
        BecomesTimed(s, a, c);
        FirstPending(s, a, c);
      }
    }
  }

  /** Every action keeps the account of timeouts. */
  lemma TimeoutInvKept(s: State, a: Action)
    requires SysInv(s) && TimeoutInv(s) && Can(s, a)
    ensures TimeoutInv(Do(s, a))
  {
    assert T.Inv(s.p.timers) && E.Inv(s.p.table);
    hide SysInv, T.Inv, E.Inv, Do, Can, TimeoutOf;
    forall c | 0 <= c < |Do(s, a).calls| ensures TimeoutOf(Do(s, a), c) {
      TimeoutOfKept(s, a, c);
    }
  }

  /** A timer just armed is pending once. */
  lemma FirstPending(s: State, a: Action, c: nat)
    requires SysInv(s) && Can(s, a) && c < |s.calls| && ArmsBy(s, a, c, |s.calls[c].arms|)
    ensures Pending(Do(s, a).p, c, |s.calls[c].arms|) == 1
  {
    hide SysInv, Do, Can, CanFiber, Pending, Begins, Disarms, Arms;
    NoFuturePending(s, c, |s.calls[c].arms|);
    PendingAfter(s, a, c, |s.calls[c].arms|);
    ArmingOnlyArms(s, a.i, a.f, c, |s.calls[c].arms|);
  }

  lemma ArmingOnlyArms(s: State, i: nat, a: FiberAct, c: nat, k: nat)
    requires CanFiber(s, i, a) && Arms(s, i, a, c, k)
    ensures !Begins(s, i, a, c, k) && Disarms(s, i, a, c, k) == 0
  {}

  // ---------------------------------------------------------------- where a timeout is

  lemma {:induction false} AccountOverRuns(s: State, acts: seq<Action>)
    requires SysInv(s) && TimeoutInv(s)
    ensures TimeoutInv(Run(s, acts))
    decreases |acts|
  {
    assert T.Inv(s.p.timers) && E.Inv(s.p.table);
    hide SysInv, TimeoutInv, Do, Can;
    if acts != [] {
      if Can(s, acts[0]) {
        DoKeeps(s, acts[0]);
        TimeoutInvKept(s, acts[0]);
        AccountOverRuns(Do(s, acts[0]), acts[1..]);
      } else {
        AccountOverRuns(s, acts[1..]);
      }
    }
  }

  /** The closure of the latest timer has not begun, and is in exactly one place: an armed timer, the
      queue, a worker's hand, or a fiber that is about to call it. */
  ghost predicate InOnePlace(s: State, c: nat)
    requires c < |s.calls| && |s.calls[c].arms| > 0
  {
    var k := |s.calls[c].arms| - 1;
    var counts := [Armed(s.p.timers, IsTimeout(c, k)), Sum(s.p.queue, InQueue(c, k)),
                   Sum(s.p.fl.workers, WithWorker(c, k)), Sum(s.p.fl.fibers, WithFiber(c, k))];
    exists n :: 0 <= n < 4 && counts[n] == 1 && forall m :: 0 <= m < 4 && m != n ==> counts[m] == 0
  }

  /** Over every run: a call with a timeout, from arming until it cancels its timer, is in one of three
      situations. Its flag is clear and its latest closure is in exactly one place; or its flag is set and
      exactly one closure is on its way to `cancelEvent`; or its timeout is spent. */
  lemma TimeoutAccounted(workers: nat, clock: T.u64, acts: seq<Action>, c: nat)
    requires Timed(After(workers, clock, acts), c)
    ensures var s := After(workers, clock, acts);
            if s.calls[c].cancelled.None? then
              |s.calls[c].arms| > 0 && InOnePlace(s, c) && forall g :: !CancellerOf(s, c, g)
            else
              Spent(s, c) || exists g :: CancellerOf(s, c, g) && forall h :: CancellerOf(s, c, h) ==> h == g
  {
    StartInv(workers, clock);
    AccountOverRuns(Start(workers, clock), acts);
    hide SysInv;
    WhereItIs(After(workers, clock, acts), c);
  }

  lemma WhereItIs(s: State, c: nat)
    requires TimeoutInv(s) && Timed(s, c)
    ensures if s.calls[c].cancelled.None? then
              |s.calls[c].arms| > 0 && InOnePlace(s, c) && forall g :: !CancellerOf(s, c, g)
            else
              Spent(s, c) || exists g :: CancellerOf(s, c, g) && forall h :: CancellerOf(s, c, h) ==> h == g
  {
    assert TimeoutOf(s, c);
    if s.calls[c].cancelled.None? {
      var k := |s.calls[c].arms| - 1;
      PendingParts(s.p, c, k);
      OneOfFour(Armed(s.p.timers, IsTimeout(c, k)), Sum(s.p.queue, InQueue(c, k)),
                Sum(s.p.fl.workers, WithWorker(c, k)), Sum(s.p.fl.fibers, WithFiber(c, k)));
    } else if !Spent(s, c) {
      var g :| 0 <= g < |s.p.fl.fibers| && s.p.fl.fibers[g].pc == Cancelling(c);
      assert CancellerOf(s, c, g);
    }
  }

  lemma OneOfFour(a: int, b: int, c: int, d: int)
    requires a >= 0 && b >= 0 && c >= 0 && d >= 0 && a + b + c + d == 1
    ensures var counts := [a, b, c, d];
            exists n :: 0 <= n < 4 && counts[n] == 1 && forall m :: 0 <= m < 4 && m != n ==> counts[m] == 0
  {
    var counts := [a, b, c, d];
    var n := if a == 1 then 0 else if b == 1 then 1 else if c == 1 then 2 else 3;
    assert counts[n] == 1;
  }

  // ---------------------------------------------------------------- how slots come to hold a fiber

  /** Among the slots only `addEvent` puts a fiber into one. */
  lemma RegistersByAdding(t: E.Table, op: ER.Op, fd: nat, e: E.Event, f: FiberId)
    requires E.Inv(t) && ER.Effect(t, op).Done?
    requires !Registered(t, fd, e, f) && Registered(ER.Effect(t, op).table, fd, e, f)
    ensures op.Add? && op.fd == fd && op.e == e && op.w == FiberOf(f) && op.granted
  {
    match op
    case Add(fd', e', w, granted) => AddingRegisters(t, fd', e', w, granted, fd, e, f);
    case Del(fd', e', granted) =>
      E.DelEventIsSilentCancel(t, fd', e', granted);
      CancellingFrees(t, fd', e', granted, fd, e, f);
      hide E.CancelEvent, E.DelEvent, E.Inv, Registered;
    case Cancel(fd', e', granted) => CancellingFrees(t, fd', e', granted, fd, e, f); hide E.CancelEvent, E.Inv, Registered;
    case CancelEvery(fd', granted) =>
      E.CancelAllKeeps(t, fd', granted);
      hide E.CancelAll;
      SlotIsBit(t, fd, e, f);
    case Report(fd', reported, granted) => DispatchingFrees(t, fd', reported, granted, fd, e, f); hide E.Dispatch, E.Inv, Registered;
  }

  /** In a sound table the bit follows the slot. */
  lemma SlotIsBit(t: E.Table, fd: nat, e: E.Event, f: FiberId)
    requires E.Inv(t)
    ensures Registered(t, fd, e, f) <==> fd < |t.ctxs| && t.ctxs[fd].Get(e) == E.Slot(true, Some(f), None)
  {
    if fd < |t.ctxs| {
      assert E.CtxOk(t.ctxs[fd], fd);
    }
  }

  lemma AddingRegisters(t: E.Table, fd': nat, e': E.Event, w: Content, granted: bool, fd: nat, e: E.Event, f: FiberId)
    requires E.Inv(t) && E.AddEvent(t, fd', e', w, granted).Done?
    requires !Registered(t, fd, e, f) && Registered(E.AddEvent(t, fd', e', w, granted).table, fd, e, f)
    ensures fd' == fd && e' == e && w == FiberOf(f) && granted
  {
    E.AddEventUnfolds(t, fd', e', w, granted);
    E.AddEventKeeps(t, fd', e', w, granted);
    E.GrowKeepsInv(t, fd');
    SlotIsBit(t, fd, e, f);
    SlotIsBit(E.AddEvent(t, fd', e', w, granted).table, fd, e, f);
    GrownSlot(t, fd', fd, e);
    hide E.AddEvent, E.Grown, E.Inv, E.More, E.Edge, E.Has, Registered, E.Kept;
  }

  /** Slots that growth makes are empty. */
  lemma GrownSlot(t: E.Table, fd': nat, fd: nat, e: E.Event)
    ensures |t.ctxs| <= fd < |E.Grown(t, fd').ctxs| ==> E.Grown(t, fd').ctxs[fd].Get(e) == E.EMPTY
  {}

  lemma CancellingFrees(t: E.Table, fd': nat, e': E.Event, granted: bool, fd: nat, e: E.Event, f: FiberId)
    requires E.Inv(t) && !Registered(t, fd, e, f)
    ensures E.CancelEvent(t, fd', e', granted).Done?
    ensures !Registered(E.CancelEvent(t, fd', e', granted).table, fd, e, f)
  {
    E.CancelEventKeeps(t, fd', e', granted);
    SlotIsBit(t, fd, e, f);
    hide E.CancelEvent, E.Inv, E.Less, E.Kept;
  }

  lemma DispatchingFrees(t: E.Table, fd': nat, reported: E.Mask, granted: bool, fd: nat, e: E.Event, f: FiberId)
    requires E.Inv(t) && !Registered(t, fd, e, f) && E.Dispatch(t, fd', reported, granted).Done?
    ensures !Registered(E.Dispatch(t, fd', reported, granted).table, fd, e, f)
  {
    SlotIsBit(t, fd, e, f);
    EventSteps.OthersUntouched(t, fd', reported, granted);
    if fd' < |t.ctxs| {
      EventSteps.DispatchIs(t, fd', reported, granted);
      SlotIsBit(E.Dispatch(t, fd', reported, granted).table, fd, e, f);
      var hit := E.RealEvents(reported);
      BothFree(t.ctxs[fd'], E.Has(hit, E.READ), E.Has(hit, E.WRITE), e);
      hide E.Inv, E.Has, E.RealEvents, EventSteps.Both, Registered, E.CtxOk, E.Minus, E.Edge, E.Overlaps, E.Ctl, E.Dispatch;
    }
  }

  /** A trigger empties a slot or leaves it. */
  lemma BothFree(c: E.Ctx, read: bool, write: bool, e: E.Event)
    ensures var s := EventSteps.Both(c, read, write).0.Get(e); s == c.Get(e) || s.fiber.None? || s.cb.Some? || !s.scheduler
  {}

  // ---------------------------------------------------------------- exactly when a call is stranded

  /** A worker puts its hand on fibers only that are not in the middle of their code. */
  lemma TouchedOffCpu(s: State, i: nat, a: WorkerAct)
    requires SysInv(s) && CanWorker(s, i, a) && Touched(s, i, a).Some? && Touched(s, i, a).value.0 < |s.p.fl.fibers|
    ensures !OnCpu(s.p.fl.fibers[Touched(s, i, a).value.0].pc)
  {
    assert WorkerFits(s.p.fl.workers[i], s.p.fl.fibers);
    hide SysInv;
  }

  lemma OnlyCancelsWait(s: State, i: nat, a: FiberAct)
    requires CanFiber(s, i, a) && Running(s, i) && MyPc(s, i).Cancelling?
    ensures a.CancelWait?
  {}

  predicate CancelsBy(s: State, a: Action, c: nat, g: FiberId) {
    a.ByFiber? && a.f.CancelWait? && CanCancelWait(s, a.i) && Me(s, a.i) == g && MyPc(s, a.i).c == c
  }

  /** A closure stays on its way to `cancelEvent` until it gets there. */
  lemma CancellerStays(s: State, a: Action, c: nat, g: FiberId)
    requires SysInv(s) && Can(s, a) && CancellerOf(s, c, g) && !CancelsBy(s, a, c, g)
    ensures CancellerOf(Do(s, a), c, g)
  {
    assert T.Inv(s.p.timers) && E.Inv(s.p.table);
    hide SysInv, T.Inv, E.Inv, DoWorker, DoFiber, DoUser, CanWorker, CanUser, WorkerAfter, Touched, WorkersQueue, WorkersTable,
         WorkersTimers, Stopping, InFlight;
    match a {
      case ByWorker(i, w) =>
        WorkerShape(s, i, w);
        if Touched(s, i, w).Some? && Touched(s, i, w).value.0 == g { TouchedOffCpu(s, i, w); }
      case ByFiber(i, x) =>
        FiberEffects(s, i, x);
        if Me(s, i) == g { OnlyCancelsWait(s, i, x); }
      case ByUser(who, u) => UserShape(s, u);
      case Tick(_) =>
      case Stop =>
    }
  }

  /** What strands a call: `addEvent` after its timeout is spent, or the kernel's refusal of its own
      `cancelEvent` while it waits. */
  ghost predicate Strands(s: State, a: Action, c: nat)
    requires c < |s.calls|
  {
    a.ByFiber? &&
    match a.f
    case IoAdd(granted) => granted && AtCall(s, a.i) && MyCall(s, a.i) == c && Spent(s, c)
    case CancelWait(granted) =>
      && !granted && CanCancelWait(s, a.i) && MyPc(s, a.i).c == c && s.calls[c].result.None?
      && Registered(s.p.table, s.calls[c].fd, s.calls[c].ev, s.calls[c].fiber)
    case _ => false
  }

  /** Exactly these two actions strand a call. */
  lemma BecomesStranded(s: State, a: Action, c: nat)
    requires SysInv(s) && TimeoutInv(s) && Can(s, a) && c < |s.calls| && !Stranded(s, c)
    ensures Stranded(Do(s, a), c) <==> Strands(s, a, c)
  {
    assert T.Inv(s.p.timers) && E.Inv(s.p.table);
    hide SysInv, T.Inv, E.Inv, TimeoutInv, Do, Can, Stranded, Strands;
    if Stranded(Do(s, a), c) {
      StrandedByOne(s, a, c);
    }
    if Strands(s, a, c) {
      OneStrands(s, a, c);
    }
  }

  lemma StrandedByOne(s: State, a: Action, c: nat)
    requires SysInv(s) && TimeoutInv(s) && Can(s, a) && c < |s.calls| && !Stranded(s, c) && Stranded(Do(s, a), c)
    ensures Strands(s, a, c)
  {
    assert T.Inv(s.p.timers) && E.Inv(s.p.table);
    ResultsAreOwn(s, a, c);
    var call := s.calls[c];
    hide SysInv, T.Inv, E.Inv, TimeoutInv, Do, Can, Registered;
    if Registered(s.p.table, call.fd, call.ev, call.fiber) {
      SpentByRefusal(s, a, c);
    } else {
      SpentBefore(s, a, c);
    }
  }

  lemma SpentByRefusal(s: State, a: Action, c: nat)
    requires SysInv(s) && Can(s, a) && c < |s.calls| && s.calls[c].result.None? && !Spent(s, c) && Stranded(Do(s, a), c)
    requires Registered(s.p.table, s.calls[c].fd, s.calls[c].ev, s.calls[c].fiber)
    ensures Strands(s, a, c)
  {
    assert T.Inv(s.p.timers) && E.Inv(s.p.table);
    ResultsAreOwn(s, a, c);
    hide SysInv, T.Inv, E.Inv, Do, Can, Registered;
    if s.calls[c].cancelled.None? {
      RisingFlagHasCanceller(s, a, c);
    } else {
      var g :| 0 <= g < |s.p.fl.fibers| && s.p.fl.fibers[g].pc == Cancelling(c);
      if CancelsBy(s, a, c, g) {
        OnlyRefused(s, a, c);
      } else {
        CancellerStays(s, a, c, g);
      }
    }
  }

  /** The action that sets the flag leaves its closure on the way to `cancelEvent`. */
  lemma RisingFlagHasCanceller(s: State, a: Action, c: nat)
    requires SysInv(s) && Can(s, a) && c < |s.calls| && s.calls[c].result.None? && s.calls[c].cancelled.None?
    requires c < |Do(s, a).calls| && Do(s, a).calls[c].cancelled.Some?
    ensures exists g :: CancellerOf(Do(s, a), c, g)
  {
    ResultsAreOwn(s, a, c);
    OnlyBeginsTimeout(s, a.i, a.f);
    FlagMakesCanceller(s, a.i, c);
    hide SysInv, CanFiber, DoBeginTimeout, CancellerOf;
  }

  lemma OnlyRefused(s: State, a: Action, c: nat)
    requires T.Inv(s.p.timers) && E.Inv(s.p.table) && Can(s, a) && c < |s.calls| && a.ByFiber? && a.f.CancelWait?
    requires CanCancelWait(s, a.i) && MyPc(s, a.i).c == c
    requires Registered(s.p.table, s.calls[c].fd, s.calls[c].ev, s.calls[c].fiber)
    requires c < |Do(s, a).calls| && Registered(Do(s, a).p.table, s.calls[c].fd, s.calls[c].ev, s.calls[c].fiber)
    ensures !a.f.granted
  {
    assert E.Inv(s.p.table);
    if a.f.granted {
      GrantedCancelFrees(s, a.i, c);
    }
    hide SysInv, E.Inv, Registered, DoCancelWait;
  }

  lemma OnlyBeginsTimeout(s: State, i: nat, a: FiberAct)
    requires CanFiber(s, i, a) && CanBeginTimeout(s, i)
    ensures a.BeginTimeout?
  {}

  lemma FlagMakesCanceller(s: State, i: nat, c: nat)
    requires CanBeginTimeout(s, i) && MyPc(s, i).cb.call == c && s.calls[c].cancelled.None? && s.calls[c].result.None?
    ensures CancellerOf(DoBeginTimeout(s, i), c, Me(s, i))
  {}

  lemma GrantedCancelFrees(s: State, i: nat, c: nat)
    requires E.Inv(s.p.table) && CanCancelWait(s, i) && MyPc(s, i).c == c
    requires Registered(s.p.table, s.calls[c].fd, s.calls[c].ev, s.calls[c].fiber)
    ensures var s' := DoCancelWait(s, i, true);
            s'.calls == s.calls && !Registered(s'.p.table, s.calls[c].fd, s.calls[c].ev, s.calls[c].fiber)
  {
    E.CancelEventKeeps(s.p.table, s.calls[c].fd, s.calls[c].ev, true);
    hide E.Inv, E.CancelEvent, E.Kept;
  }

  /** A registration leaves the closures of a call where they are. */
  lemma NoCancellerBefore(s: State, a: Action, c: nat)
    requires SysInv(s) && Can(s, a) && c < |s.calls| && a.ByFiber? && a.f.IoAdd? && Spent(Do(s, a), c)
    ensures forall g :: 0 <= g < |s.p.fl.fibers| ==> s.p.fl.fibers[g].pc != Cancelling(c)
  {
    hide SysInv, Do, Can;
    forall g | 0 <= g < |s.p.fl.fibers| ensures s.p.fl.fibers[g].pc != Cancelling(c) {
      if CancellerOf(s, c, g) {
        CancellerStays(s, a, c, g);
      }
    }
  }

  lemma WhoRegisters(s: State, a: Action, c: nat)
    requires SysInv(s) && Can(s, a) && c < |s.calls| && s.calls[c].result.None? && Stranded(Do(s, a), c)
    requires !Registered(s.p.table, s.calls[c].fd, s.calls[c].ev, s.calls[c].fiber)
    ensures a.ByFiber? && a.f.IoAdd? && AtCall(s, a.i) && MyCall(s, a.i) == c && a.f.granted
  {
    assert E.Inv(s.p.table);
    hide SysInv, E.Inv, Do, Can, Registered, ER.Effect, TableOp;
    ResultsAreOwn(s, a, c);
    ActionMovesTable(s, a);
    var call := s.calls[c];
    RegistersByAdding(s.p.table, TableOp(s, a).value, call.fd, call.ev, call.fiber);
    AddsForItself(s, a, c);
  }

  lemma SpentBefore(s: State, a: Action, c: nat)
    requires SysInv(s) && Can(s, a) && c < |s.calls| && s.calls[c].result.None? && Stranded(Do(s, a), c)
    requires !Registered(s.p.table, s.calls[c].fd, s.calls[c].ev, s.calls[c].fiber)
    ensures Strands(s, a, c)
  {
    hide SysInv, Do, Registered;
    WhoRegisters(s, a, c);
    ResultsAreOwn(s, a, c);
    NotAClosure(s, a.i, a.f);
    NoCancellerBefore(s, a, c);
  }

  /** The only action that registers a fiber is that fiber's own `addEvent`, for the call it is in. */
  lemma AddsForItself(s: State, a: Action, c: nat)
    requires SysInv(s) && Can(s, a) && c < |s.calls| && s.calls[c].result.None?
    requires TableOp(s, a).Some? && TableOp(s, a).value.Add? && TableOp(s, a).value.w == FiberOf(s.calls[c].fiber)
    ensures a.ByFiber? && a.f.IoAdd? && AtCall(s, a.i) && MyCall(s, a.i) == c && a.f.granted == TableOp(s, a).value.granted
  {
    LinkOf(s, c);
    hide SysInv, CanWorker, CanUser;
  }

  lemma NotAClosure(s: State, i: nat, a: FiberAct)
    requires CanFiber(s, i, a) && a.IoAdd?
    ensures !CanBeginTimeout(s, i)
  {}

  lemma OneStrands(s: State, a: Action, c: nat)
    requires SysInv(s) && TimeoutInv(s) && Can(s, a) && c < |s.calls| && Strands(s, a, c)
    ensures Stranded(Do(s, a), c)
  {
    assert T.Inv(s.p.timers) && E.Inv(s.p.table);
    var i := a.i;
    if a.f.IoAdd? {
      LateAdd(s, i, c);
    } else {
      assert TimeoutOf(s, c);
      RefusedCancelStrands(s, i, c);
    }
    hide SysInv, T.Inv, E.Inv, TimeoutInv, Stranded, Spent, DoIoAdd, DoCancelWait;
  }

  lemma LateAdd(s: State, i: nat, c: nat)
    requires SysInv(s) && CanIoAdd(s, i, true) && MyCall(s, i) == c && Spent(s, c)
    ensures Stranded(DoIoAdd(s, i, true), c)
  {
    RunningInCall(s, i);
    OwnCall(s, i);
    assert E.Inv(s.p.table);
    E.AddEventKeeps(s.p.table, s.calls[c].fd, s.calls[c].ev, FiberOf(Me(s, i)), true);
    hide E.AddEvent, E.Inv, Stranded, Spent, DoIoAdd;
    RegistersTooLate(s, i, c);
  }

  /** The second way: the closure comes in time, but the kernel refuses the call that takes the waiter
      out. */
  lemma RefusedCancelStrands(s: State, i: nat, c: nat)
    requires E.Inv(s.p.table) && CanCancelWait(s, i) && MyPc(s, i).c == c && TimeoutOf(s, c) && s.calls[c].result.None?
    requires Registered(s.p.table, s.calls[c].fd, s.calls[c].ev, s.calls[c].fiber)
    ensures Stranded(DoCancelWait(s, i, false), c)
  {
    E.CancelEventKeeps(s.p.table, s.calls[c].fd, s.calls[c].ev, false);
    hide E.Inv, E.CancelEvent, E.Kept, Timed, Pending, Registered;
    assert CancellerOf(s, c, Me(s, i));
    var s' := DoCancelWait(s, i, false);
    forall g | 0 <= g < |s'.p.fl.fibers| ensures s'.p.fl.fibers[g].pc != Cancelling(c) {
      assert g != Me(s, i) ==> !CancellerOf(s, c, g);
    }
  }

  lemma StrandedIsTimed(s: State, c: nat)
    requires SysInv(s) && Stranded(s, c)
    ensures Timed(s, c)
  {
    StrandedWaits(s, c);
    assert CallOk(s.calls[c], s.clock, s.rolled);
    hide SysInv, Registered;
  }

  lemma StepStrands(s: State, a: Action, c: nat)
    requires SysInv(s) && TimeoutInv(s) && Can(s, a) && !Stranded(s, c) && Stranded(Do(s, a), c)
    ensures c < |s.calls| && Strands(s, a, c)
  {
    assert T.Inv(s.p.timers) && E.Inv(s.p.table);
    DoKeeps(s, a);
    StrandedIsTimed(Do(s, a), c);
    hide SysInv, T.Inv, E.Inv, TimeoutInv, Do, Can, Timed, Strands;
    if c >= |s.calls| {
      assert c < |Do(s, a).calls|;
      NewCallIsUntimed(s, a, c);
    } else {
      BecomesStranded(s, a, c);
    }
  }

  /** Some action on the way is one of the two. */
  ghost predicate StrandedOnTheWay(s: State, acts: seq<Action>, c: nat)
    requires SysInv(s)
    decreases |acts|
  {
    acts != [] &&
    if Can(s, acts[0]) then
      (c < |s.calls| && Strands(s, acts[0], c)) || (DoKeeps(s, acts[0]); StrandedOnTheWay(Do(s, acts[0]), acts[1..], c))
    else StrandedOnTheWay(s, acts[1..], c)
  }

  lemma {:induction false} StrandedHasCause(s: State, acts: seq<Action>, c: nat)
    requires SysInv(s) && TimeoutInv(s) && !Stranded(s, c) && Stranded(Run(s, acts), c)
    ensures StrandedOnTheWay(s, acts, c)
    decreases |acts|
  {
    assert T.Inv(s.p.timers) && E.Inv(s.p.table);
    hide SysInv, TimeoutInv, Do, Can, Stranded, Strands;
    if Can(s, acts[0]) {
      DoKeeps(s, acts[0]);
      if Stranded(Do(s, acts[0]), c) {
        StepStrands(s, acts[0], c);
      } else {
        TimeoutInvKept(s, acts[0]);
        StrandedHasCause(Do(s, acts[0]), acts[1..], c);
      }
    } else {
      StrandedHasCause(s, acts[1..], c);
    }
  }

  /** Whenever a run leaves a call stranded, one of its actions was one of those two. */
  lemma StrandedRunsHaveCause(workers: nat, clock: T.u64, acts: seq<Action>, c: nat)
    requires Stranded(After(workers, clock, acts), c)
    ensures SysInv(Start(workers, clock)) && StrandedOnTheWay(Start(workers, clock), acts, c)
  {
    StartInv(workers, clock);
    hide SysInv, StrandedOnTheWay;
    StrandedHasCause(Start(workers, clock), acts, c);
  }

  // ---------------------------------------------------------------- closures left over from calls that returned

  /** Both steps of a closure whose call has returned: beginning it does nothing; the `cancelEvent` of one
      that had set the flag before moves at most the one waiter of the call's descriptor and direction to
      the queue, whoever that is by now. No call's flag, result or timer changes. */
  lemma LeftoverClosure(s: State, i: nat, a: FiberAct)
    requires T.Inv(s.p.timers) && E.Inv(s.p.table) && CanFiber(s, i, a) && (a.BeginTimeout? || a.CancelWait?)
    requires s.calls[ClosureCall(s, i, a)].result.Some?
    ensures var s' := DoFiber(s, i, a); var call := s.calls[ClosureCall(s, i, a)];
            && s'.calls == s.calls && s'.p.timers == s.p.timers
            && (if a.CancelWait? && a.granted && call.fd < |s.p.table.ctxs| && E.Has(s.p.table.ctxs[call.fd].events, call.ev) then
                  var waiter := E.Waiter(s.p.table.ctxs[call.fd].Get(call.ev));
                  && |waiter| == 1 && s'.p.queue == s.p.queue + [Entry(waiter[0], -1)]
                  && |s'.p.table.ctxs| == |s.p.table.ctxs|
                  && s'.p.table.ctxs[call.fd].Get(call.ev) == E.EMPTY
                  && (forall fd, e :: 0 <= fd < |s.p.table.ctxs| && (fd != call.fd || e != call.ev) ==>
                        s'.p.table.ctxs[fd].Get(e) == s.p.table.ctxs[fd].Get(e))
                else s'.p.queue == s.p.queue && s'.p.table == s.p.table)
  {
    assert T.Inv(s.p.timers) && E.Inv(s.p.table);
    FiberShape(s, i, a);
    var call := s.calls[ClosureCall(s, i, a)];
    assert s.p.queue + Unpinned([]) == s.p.queue;
    if a.CancelWait? {
      E.CancelEventKeeps(s.p.table, call.fd, call.ev, a.granted);
      UnpinnedOne(s.p.queue, Cancelled(s, i, a.granted).woken);
    }
    hide SysInv, T.Inv, E.Inv, DoFiber, E.CancelEvent, E.Kept, E.Has, E.Less, E.Waiter, FleetAfter, NextPc;
  }

  /** The call that a closure belongs to. */
  function ClosureCall(s: State, i: nat, a: FiberAct): nat
    requires CanFiber(s, i, a) && (a.BeginTimeout? || a.CancelWait?)
  {
    if a.BeginTimeout? then MyPc(s, i).cb.call else MyPc(s, i).c
  }

  lemma UnpinnedOne(queue: seq<Entry>, xs: seq<Content>)
    ensures |xs| == 1 ==> queue + Unpinned(xs) == queue + [Entry(xs[0], -1)]
  {
    if |xs| == 1 {
      assert Unpinned(xs[1..]) == [];
    }
  }

  predicate BeginsOwn(s: State, a: Action, d: nat) {
    a.ByFiber? && CanBeginTimeout(s, a.i) && MyPc(s, a.i).cb.call == d
  }

  /** No closure of call `d` begins in the run; others may, leftovers of earlier calls on the same
      descriptor included. */
  ghost predicate NoOwnClosure(s: State, acts: seq<Action>, d: nat)
    requires SysInv(s)
    decreases |acts|
  {
    acts == [] ||
    if Can(s, acts[0]) then
      !BeginsOwn(s, acts[0], d) && (DoKeeps(s, acts[0]); NoOwnClosure(Do(s, acts[0]), acts[1..], d))
    else NoOwnClosure(s, acts[1..], d)
  }

  /** Over every run: a call none of whose own closures begins keeps its flag clear and does not time out,
      whatever leftover closures do to its wait. */
  lemma {:induction false} OnlyOwnClosuresTimeOut(s: State, acts: seq<Action>, d: nat)
    requires SysInv(s) && d < |s.calls| && s.calls[d].cancelled.None? && NoOwnClosure(s, acts, d)
    ensures var s' := Run(s, acts);
            d < |s'.calls| && s'.calls[d].cancelled.None? && s'.calls[d].result != Some(TimedOut)
    decreases |acts|
  {
    assert T.Inv(s.p.timers) && E.Inv(s.p.table) && CallOk(s.calls[d], s.clock, s.rolled);
    if acts != [] && Can(s, acts[0]) {
      DoKeeps(s, acts[0]);
      ResultsAreOwn(s, acts[0], d);
    }
    hide SysInv, Do, Can;
    if acts != [] {
      if Can(s, acts[0]) {
        OnlyOwnClosuresTimeOut(Do(s, acts[0]), acts[1..], d);
      } else {
        OnlyOwnClosuresTimeOut(s, acts[1..], d);
      }
    }
  }

  /** A call woken with its flag clear goes on from `retry`: no result yet, and its fiber is about to make
      the system call again. */
  lemma WokenInVainRetries(s: State, i: nat, a: FiberAct)
    requires SysInv(s) && CanFiber(s, i, a) && a.IoReadFlag? && s.calls[MyCall(s, i)].cancelled.None?
    ensures var s' := DoFiber(s, i, a); var d := MyCall(s, i);
            && d < |s'.calls| && s'.calls[d].result.None?
            && Me(s, i) < |s'.p.fl.fibers| && s'.p.fl.fibers[Me(s, i)].pc == IoTry(d)
            && s'.p.queue == s.p.queue && s'.p.table == s.p.table
  {
    assert T.Inv(s.p.timers) && E.Inv(s.p.table);
    OwnCall(s, i);
    FiberShape(s, i, a);
    hide SysInv, T.Inv, E.Inv, DoFiber;
  }
}
