/** A timeout can be spent before the wait begins: the condition timer of `do_io` is armed before
    `addEvent`, and when its closure runs in between, nothing will end the wait in its place. */
module RuntimeTimeouts {
  import opened Common
  import opened Sums
  import opened Fleet
  import opened Tokens
  import opened Runtime
  import opened RuntimeRuns
  import opened RuntimeTheorems
  import opened RuntimeShapes
  import T = TimerSpec
  import E = EventSpec
  import ER = EventRuns
  import EventSteps

  // ---------------------------------------------------------------- slots that an operation leaves alone

  /** The operation may empty the slot of direction `e` of descriptor `fd`. */
  predicate MayEmpty(op: ER.Op, fd: nat, e: E.Event) {
    match op
    case Add(_, _, _, _) => false
    case Del(fd', e', _) => fd' == fd && e' == e
    case Cancel(fd', e', _) => fd' == fd && e' == e
    case CancelEvery(fd', _) => fd' == fd
    case Report(fd', _, _) => fd' == fd
  }

  predicate Registered(t: E.Table, fd: nat, e: E.Event, f: FiberId) {
    fd < |t.ctxs| && E.Has(t.ctxs[fd].events, e) && t.ctxs[fd].Get(e) == E.Slot(true, Some(f), None)
  }

  lemma SlotStays(t: E.Table, op: ER.Op, fd: nat, e: E.Event, f: FiberId)
    requires E.Inv(t) && Registered(t, fd, e, f) && !MayEmpty(op, fd, e) && ER.Effect(t, op).Done?
    ensures Registered(ER.Effect(t, op).table, fd, e, f)
  {
    match op
    case Add(fd', e', w, granted) => AddLeaves(t, fd', e', w, granted, fd, e, f);
    case Del(fd', e', granted) => DelLeaves(t, fd', e', granted, fd, e, f);
    case Cancel(fd', e', granted) => CancelLeaves(t, fd', e', granted, fd, e, f);
    case CancelEvery(fd', granted) => E.CancelAllKeeps(t, fd', granted); hide E.CancelAll;
    case Report(fd', reported, granted) =>
      EventSteps.OthersUntouched(t, fd', reported, granted);
      hide E.Dispatch;
  }

  lemma AddLeaves(t: E.Table, fd': nat, e': E.Event, w: Content, granted: bool, fd: nat, e: E.Event, f: FiberId)
    requires E.Inv(t) && Registered(t, fd, e, f) && E.AddEvent(t, fd', e', w, granted).Done?
    ensures Registered(E.AddEvent(t, fd', e', w, granted).table, fd, e, f)
  {
    E.AddEventUnfolds(t, fd', e', w, granted);
    E.AddEventKeeps(t, fd', e', w, granted);
    E.GrowKeepsInv(t, fd');
    hide E.AddEvent, E.Grown, E.Inv, E.More, E.Edge;
    OtherBit(t.ctxs[fd].events, e', e);
  }

  lemma CancelLeaves(t: E.Table, fd': nat, e': E.Event, granted: bool, fd: nat, e: E.Event, f: FiberId)
    requires E.Inv(t) && Registered(t, fd, e, f) && !(fd' == fd && e' == e)
    ensures E.CancelEvent(t, fd', e', granted).Done?
    ensures Registered(E.CancelEvent(t, fd', e', granted).table, fd, e, f)
  {
    E.CancelEventKeeps(t, fd', e', granted);
    hide E.CancelEvent, E.Inv, E.Less;
    OtherBit(t.ctxs[fd].events, e', e);
  }

  lemma DelLeaves(t: E.Table, fd': nat, e': E.Event, granted: bool, fd: nat, e: E.Event, f: FiberId)
    requires E.Inv(t) && Registered(t, fd, e, f) && !(fd' == fd && e' == e)
    ensures E.DelEvent(t, fd', e', granted).Done?
    ensures Registered(E.DelEvent(t, fd', e', granted).table, fd, e, f)
  {
    E.DelEventIsSilentCancel(t, fd', e', granted);
    hide E.CancelEvent, E.DelEvent, E.Inv;
    CancelLeaves(t, fd', e', granted, fd, e, f);
  }

  lemma OtherBit(m: E.Mask, e': E.Event, e: E.Event)
    ensures e' != e ==> E.Has(E.Less(m, e'), e) == E.Has(m, e) && E.Has(E.More(m, e'), e) == E.Has(m, e)
    ensures e' == e ==> E.Has(E.More(m, e'), e)
  {}

  // ---------------------------------------------------------------- what an action does to the table

  function TableOp(s: State, a: Action): Option<ER.Op> {
    match a
    case ByWorker(i, DispatchOne(granted)) =>
      if CanDispatch(s, i, granted) then Some(ER.Report(PcAt(s, i).evs[0].0, PcAt(s, i).evs[0].1, granted)) else None
    case ByFiber(i, CancelWait(granted)) =>
      if CanCancelWait(s, i) then var k := s.calls[MyPc(s, i).c]; Some(ER.Cancel(k.fd, k.ev, granted)) else None
    case ByFiber(i, IoAdd(granted)) =>
      if AtCall(s, i) then var k := s.calls[MyCall(s, i)]; Some(ER.Add(k.fd, k.ev, FiberOf(Me(s, i)), granted)) else None
    case ByUser(_, UserAdd(fd, ev, n, granted)) => Some(ER.Add(fd, ev, CallbackOf(User(n)), granted))
    case ByUser(_, UserDel(fd, ev, granted)) => Some(ER.Del(fd, ev, granted))
    case ByUser(_, UserCancelEvent(fd, ev, granted)) => Some(ER.Cancel(fd, ev, granted))
    case ByUser(_, UserClose(fd, granted)) => Some(ER.CancelEvery(fd, granted))
    case _ => None
  }

  /** The table moves by its own operations only. */
  ghost predicate TableMoves(t: E.Table, op: Option<ER.Op>, t': E.Table) {
    if op.None? then t' == t
    else |t.ctxs| >= 32 && ER.Effect(t, op.value).Done? && t' == ER.Effect(t, op.value).table
  }

  lemma WorkerMovesTable(s: State, i: nat, a: WorkerAct)
    requires T.Inv(s.p.timers) && E.Inv(s.p.table) && CanWorker(s, i, a)
    ensures TableMoves(s.p.table, TableOp(s, ByWorker(i, a)), DoWorker(s, i, a).p.table)
  {
    WorkerShape(s, i, a);
    hide T.Inv, E.Inv, DoWorker, E.Dispatch, WorkerAfter, Touched, WorkersQueue, WorkersTimers, Stopping, InFlight;
  }

  lemma FiberMovesTable(s: State, i: nat, a: FiberAct)
    requires T.Inv(s.p.timers) && E.Inv(s.p.table) && CanFiber(s, i, a)
    ensures TableMoves(s.p.table, TableOp(s, ByFiber(i, a)), DoFiber(s, i, a).p.table)
  {
    FiberShape(s, i, a);
    assert |s.p.table.ctxs| >= 32;
    hide T.Inv, E.Inv, DoFiber, E.CancelEvent, E.AddEvent, FleetAfter, CallsAfter, QueueAfter, TimersAfter;
  }

  lemma AddsMoveTable(s: State, who: Option<nat>, a: UserAct)
    requires SysInv(s) && CanUser(s, a) && (a.UserAdd? || a.UserDel?)
    ensures TableMoves(s.p.table, TableOp(s, ByUser(who, a)), DoUser(s, a).p.table)
  {
    assert T.Inv(s.p.timers) && E.Inv(s.p.table);
    hide SysInv, E.AddEvent, E.DelEvent, E.Inv, T.Inv;
  }

  lemma CancelsMoveTable(s: State, who: Option<nat>, a: UserAct)
    requires T.Inv(s.p.timers) && E.Inv(s.p.table) && CanUser(s, a) && (a.UserCancelEvent? || a.UserClose?)
    ensures TableMoves(s.p.table, TableOp(s, ByUser(who, a)), DoUser(s, a).p.table)
  {
    assert T.Inv(s.p.timers) && E.Inv(s.p.table);
    hide SysInv, E.CancelEvent, E.CancelAll, E.Inv, T.Inv;
  }

  lemma OthersLeaveTable(s: State, who: Option<nat>, a: UserAct)
    requires SysInv(s) && CanUser(s, a) && !OnEvents(a)
    ensures TableMoves(s.p.table, TableOp(s, ByUser(who, a)), DoUser(s, a).p.table)
  {
    assert T.Inv(s.p.timers) && E.Inv(s.p.table);
    hide SysInv, T.Add, T.Cancel, T.Refresh, T.Reset, T.Inv;
  }

  lemma UserMovesTable(s: State, who: Option<nat>, a: UserAct)
    requires SysInv(s) && CanUser(s, a)
    ensures TableMoves(s.p.table, TableOp(s, ByUser(who, a)), DoUser(s, a).p.table)
  {
    assert T.Inv(s.p.timers) && E.Inv(s.p.table);
    hide SysInv, T.Inv, E.Inv, DoUser, TableMoves, CanUser;
    if a.UserAdd? || a.UserDel? {
      AddsMoveTable(s, who, a);
    } else if a.UserCancelEvent? || a.UserClose? {
      CancelsMoveTable(s, who, a);
    } else {
      OthersLeaveTable(s, who, a);
    }
  }

  // ---------------------------------------------------------------- spent timeouts

  /** One closure of the call has set its flag and has finished: none will call `cancelEvent` any more. */
  ghost predicate Spent(s: State, c: nat) {
    && c < |s.calls| && s.calls[c].cancelled.Some?
    && forall g :: 0 <= g < |s.p.fl.fibers| ==> s.p.fl.fibers[g].pc != Cancelling(c)
  }

  /** Code is at `Cancelling` only where it was before, or where a closure has just set the flag. */
  ghost predicate NoNewCancel(s: State, a: Action, s': State) {
    forall g: FiberId :: CancelFrom(s, a, s', g)
  }

  predicate CancelFrom(s: State, a: Action, s': State, g: FiberId) {
    g < |s'.p.fl.fibers| && s'.p.fl.fibers[g].pc.Cancelling? ==>
      || (g < |s.p.fl.fibers| && s.p.fl.fibers[g].pc == s'.p.fl.fibers[g].pc)
      || (a.ByFiber? && CanBeginTimeout(s, a.i) && SetsFlag(s, a.i) && g == Me(s, a.i)
          && var c := MyPc(s, a.i).cb.call;
             s'.p.fl.fibers[g].pc == Cancelling(c) && c < |s'.calls| && s'.calls[c].cancelled.Some?)
  }

  lemma WorkersStartNoCancel(s: State, i: nat, a: WorkerAct)
    requires T.Inv(s.p.timers) && E.Inv(s.p.table) && CanWorker(s, i, a)
    ensures NoNewCancel(s, ByWorker(i, a), DoWorker(s, i, a))
  {
    WorkerShape(s, i, a);
    hide T.Inv, DoWorker, WorkerAfter, WorkersQueue, WorkersTable, WorkersTimers, Stopping, InFlight;
  }

  lemma FibersStartNoCancel(s: State, i: nat, a: FiberAct)
    requires T.Inv(s.p.timers) && E.Inv(s.p.table) && CanFiber(s, i, a)
    ensures NoNewCancel(s, ByFiber(i, a), DoFiber(s, i, a))
  {
    hide T.Inv, E.Inv, DoFiber, QueueAfter, TableAfter, TimersAfter, E.AddEvent, E.CancelEvent;
    FiberShape(s, i, a);
    ActsFromWithin(s, i, a);
  }

  lemma UsersStartNoCancel(s: State, who: Option<nat>, a: UserAct)
    requires T.Inv(s.p.timers) && E.Inv(s.p.table) && CanUser(s, a)
    ensures NoNewCancel(s, ByUser(who, a), DoUser(s, a))
  {
    UserShape(s, a);
    hide T.Inv, DoUser, CanUser;
  }

  /** A closure leaves a flag that is set. */
  lemma FlagStays(s: State, i: nat, a: FiberAct, c: nat)
    requires SysInv(s) && CanFiber(s, i, a) && c < |s.calls| && s.calls[c].cancelled.Some?
    ensures c < |DoFiber(s, i, a).calls| && DoFiber(s, i, a).calls[c].cancelled.Some?
  {
    FibersOwnCalls(s, i, a, c);
    assert T.Inv(s.p.timers) && E.Inv(s.p.table);
    hide SysInv, T.Inv, E.Inv, DoFiber, CanFiber;
  }

  /** Flags are set, never cleared. */
  lemma FlagsStaySet(s: State, a: Action, c: nat)
    requires SysInv(s) && Can(s, a) && c < |s.calls| && s.calls[c].cancelled.Some?
    ensures c < |Do(s, a).calls| && Do(s, a).calls[c].cancelled.Some?
  {
    ResultsAreOwn(s, a, c);
    if a.ByFiber? {
      FlagStays(s, a.i, a.f, c);
    }
    hide SysInv, DoWorker, DoFiber, DoUser, CanWorker, CanFiber, CanUser;
  }

  lemma NoNewCancelBy(s: State, a: Action)
    requires SysInv(s) && Can(s, a)
    ensures NoNewCancel(s, a, Do(s, a))
  {
    assert T.Inv(s.p.timers) && E.Inv(s.p.table);
    match a {
      case ByWorker(i, w) => WorkersStartNoCancel(s, i, w);
      case ByFiber(i, f) => FibersStartNoCancel(s, i, f);
      case ByUser(who, u) =>
        UsersStartNoCancel(s, who, u);
        SameFleet(s, a, DoUser(s, u), Do(s, a));
      case Tick(_) => SameFleet(s, a, s, Do(s, a));
      case Stop => SameFleet(s, a, s, Do(s, a));
    }
    hide SysInv, T.Inv, E.Inv, DoWorker, DoFiber, DoUser, CanWorker, CanFiber, CanUser, NoNewCancel;
  }

  lemma SameFleet(s: State, a: Action, s1: State, s': State)
    requires s1 == s || NoNewCancel(s, a, s1)
    requires s'.p.fl == s1.p.fl && s'.calls == s1.calls
    ensures NoNewCancel(s, a, s')
  {
    forall g: FiberId ensures CancelFrom(s, a, s', g) {
      assert CancelFrom(s, a, s1, g);
    }
  }

  /** Spent timeouts stay spent, whatever happens. */
  lemma SpentStays(s: State, a: Action, c: nat)
    requires SysInv(s) && Can(s, a) && Spent(s, c)
    ensures Spent(Do(s, a), c)
  {
    assert T.Inv(s.p.timers) && E.Inv(s.p.table);
    FlagsStaySet(s, a, c);
    NoNewCancelBy(s, a);
    hide SysInv, T.Inv, E.Inv, Do, Can;
    forall g | 0 <= g < |Do(s, a).p.fl.fibers| ensures Do(s, a).p.fl.fibers[g].pc != Cancelling(c) {
      assert CancelFrom(s, a, Do(s, a), g);
    }
  }

  // ---------------------------------------------------------------- stranded calls

  /** The fiber waits in its slot and no timeout can come any more. */
  ghost predicate Stranded(s: State, c: nat) {
    && Spent(s, c) && s.calls[c].result.None?
    && Registered(s.p.table, s.calls[c].fd, s.calls[c].ev, s.calls[c].fiber)
  }

  lemma RegisteredIsOwed(p: Places, fd: nat, e: E.Event, f: FiberId)
    requires TokenInv(p) && Registered(p.table, fd, e, f)
    ensures Owed(p.fl.fibers, f) >= 1
  {
    hide TokenInv, Registered, Sum, InSlots;
    PartsNonNegative(p, f);
    SlotCounts(p.table, fd, e, f);
    IsOwed(p, f);
  }

  lemma IsOwed(p: Places, f: FiberId)
    requires TokenInv(p)
    ensures Held(p, f) == Owed(p.fl.fibers, f)
  {}

  /** A stranded call is before or in its wait. */
  lemma StrandedWaits(s: State, c: nat)
    requires SysInv(s) && Stranded(s, c)
    ensures var f := s.calls[c].fiber;
            f < |s.p.fl.fibers| && (s.p.fl.fibers[f].pc == IoYield(c) || s.p.fl.fibers[f].pc == IoParked(c))
  {
    LinkOf(s, c);
    assert TokenInv(s.p);
    hide SysInv, TokenInv, Registered;
    RegisteredIsOwed(s.p, s.calls[c].fd, s.calls[c].ev, s.calls[c].fiber);
  }

  lemma LinkOf(s: State, c: nat)
    requires SysInv(s) && c < |s.calls| && s.calls[c].result.None?
    ensures s.calls[c].fiber < |s.p.fl.fibers| && InCall(s.p.fl.fibers[s.calls[c].fiber].pc) == Some(c)
  {}

  lemma SlotCounts(t: E.Table, fd: nat, e: E.Event, f: FiberId)
    requires Registered(t, fd, e, f)
    ensures InSlots(t, f) >= 1
  {
    var x := FiberOf(f);
    forall c | c in t.ctxs ensures E.Holds(x)(c) >= 0 { SlotNonNegative(c, x); }
    forall c | c in t.ctxs ensures E.Holds(CallbackOf(Wake(f)))(c) >= 0 { SlotNonNegative(c, CallbackOf(Wake(f))); }
    SumAtLeast(t.ctxs, fd, E.Holds(x));
    SumNonNegative(t.ctxs, E.Holds(CallbackOf(Wake(f))));
    HoldsRegistered(t.ctxs[fd], e, f);
  }

  lemma SlotNonNegative(c: E.Ctx, x: Content)
    ensures E.Holds(x)(c) >= 0
  {
    SumNonNegative(E.Waiter(c.read), E.Same(x));
    SumNonNegative(E.Waiter(c.write), E.Same(x));
  }

  lemma HoldsRegistered(c: E.Ctx, e: E.Event, f: FiberId)
    requires c.Get(e) == E.Slot(true, Some(f), None)
    ensures E.Holds(FiberOf(f))(c) >= 1
  {
    var x := FiberOf(f);
    SumNonNegative(E.Waiter(c.read), E.Same(x));
    SumNonNegative(E.Waiter(c.write), E.Same(x));
    assert E.Waiter(c.Get(e)) == [x];
    SumAtLeast([x], 0, E.Same(x));
  }

  /** Readiness of the descriptor, or a cancel of this direction by somebody else: all that can end the
      wait of a stranded call. The clock alone cannot. */
  predicate EndsWait(s: State, a: Action, c: nat)
    requires c < |s.calls|
  {
    TableOp(s, a).Some? && MayEmpty(TableOp(s, a).value, s.calls[c].fd, s.calls[c].ev)
  }

  lemma ActionMovesTable(s: State, a: Action)
    requires SysInv(s) && Can(s, a)
    ensures TableMoves(s.p.table, TableOp(s, a), Do(s, a).p.table)
  {
    match a
    case ByWorker(i, w) => WorkerMovesTable(s, i, w);
    case ByFiber(i, f) => FiberMovesTable(s, i, f);
    case ByUser(who, u) => UserMovesTable(s, who, u);
    case Tick(_) =>
    case Stop =>
  }

  /** Inside its wait a call gets no result. */
  lemma NoResultYet(s: State, a: Action, c: nat)
    requires SysInv(s) && Can(s, a) && Stranded(s, c)
    ensures var s' := Do(s, a);
            c < |s'.calls| && s'.calls[c].result.None? && SameCall(s.calls[c], s'.calls[c])
  {
    ResultsAreOwn(s, a, c);
    StrandedWaits(s, c);
    if a.ByFiber? && AtCall(s, a.i) && MyCall(s, a.i) == c {
      LinkBack(s, a.i);
      OnlyParks(s, a.i, a.f);
    }
    hide SysInv, Do;
  }

  lemma LinkBack(s: State, i: nat)
    requires SysInv(s) && AtCall(s, i)
    ensures s.calls[MyCall(s, i)].fiber == Me(s, i)
  {}

  lemma OnlyParks(s: State, i: nat, a: FiberAct)
    requires SysInv(s) && CanFiber(s, i, a) && (MyPc(s, i).IoYield? || MyPc(s, i).IoParked?)
    ensures DoFiber(s, i, a).calls == s.calls
  {
    assert T.Inv(s.p.timers) && E.Inv(s.p.table);
    hide SysInv, T.Inv, E.Inv;
    assert !a.IoDone?;
  }

  lemma StrandedStays(s: State, a: Action, c: nat)
    requires SysInv(s) && Can(s, a) && Stranded(s, c) && !EndsWait(s, a, c)
    ensures Stranded(Do(s, a), c)
  {
    SpentStays(s, a, c);
    NoResultYet(s, a, c);
    ActionMovesTable(s, a);
    var call := s.calls[c];
    assert E.Inv(s.p.table);
    if TableOp(s, a).Some? {
      SlotStays(s.p.table, TableOp(s, a).value, call.fd, call.ev, call.fiber);
    }
    hide SysInv, Do, Can, TableOp, Registered, ER.Effect, Spent;
  }

  /** Who can end it: a report for the descriptor, the program itself, or a closure left over from
      another call; never this call's own timers, and never the clock. */
  lemma OnlyOthersEndIt(s: State, a: Action, c: nat)
    requires SysInv(s) && Can(s, a) && Stranded(s, c) && EndsWait(s, a, c)
    ensures (a.ByWorker? && a.w.DispatchOne?) || a.ByUser?
            || (a.ByFiber? && a.f.CancelWait? && CanCancelWait(s, a.i) && MyPc(s, a.i).c != c)
  {
    hide SysInv, Registered, ER.Effect;
  }

  /** Nothing on the way ends the wait. */
  ghost predicate NothingEndsWait(s: State, acts: seq<Action>, c: nat)
    requires SysInv(s) && c < |s.calls|
    decreases |acts|
  {
    acts == [] ||
    if Can(s, acts[0]) then
      !EndsWait(s, acts[0], c)
      && (DoKeeps(s, acts[0]); c < |Do(s, acts[0]).calls| && NothingEndsWait(Do(s, acts[0]), acts[1..], c))
    else NothingEndsWait(s, acts[1..], c)
  }

  /** However far the clock goes and whatever else happens. */
  lemma {:induction false} StrandedForever(s: State, acts: seq<Action>, c: nat)
    requires SysInv(s) && Stranded(s, c) && NothingEndsWait(s, acts, c)
    ensures Stranded(Run(s, acts), c)
    decreases |acts|
  {
    assert T.Inv(s.p.timers) && E.Inv(s.p.table);
    hide SysInv, Stranded, EndsWait, Do, Can;
    if acts != [] {
      if Can(s, acts[0]) {
        DoKeeps(s, acts[0]);
        StrandedStays(s, acts[0], c);
        StrandedForever(Do(s, acts[0]), acts[1..], c);
      } else {
        StrandedForever(s, acts[1..], c);
      }
    }
  }

  // ---------------------------------------------------------------- how a call comes to be stranded

  /** Worker `i` runs the call `c` between arming its timer and `addEvent`, its direction is free, and
      worker `j` runs the timer's closure. */
  ghost predicate Crossing(s: State, i: nat, j: nat, c: nat) {
    && Running(s, i) && MyPc(s, i) == IoReady(c) && c < |s.calls| && s.calls[c].fiber == Me(s, i)
    && s.calls[c].cancelled.None? && s.calls[c].result.None?
    && Running(s, j) && Me(s, j) != Me(s, i)
    && Vacant(s.p.table, s.calls[c].fd, s.calls[c].ev)
    && forall g :: 0 <= g < |s.p.fl.fibers| ==> s.p.fl.fibers[g].pc != Cancelling(c)
  }

  predicate Vacant(t: E.Table, fd: nat, e: E.Event) { fd < |t.ctxs| ==> !E.Has(t.ctxs[fd].events, e) }

  /** The closure sets the flag ... */
  lemma FlagIsSet(s: State, i: nat, j: nat, c: nat)
    requires SysInv(s) && Crossing(s, i, j, c) && CanBeginTimeout(s, j) && MyPc(s, j).cb.call == c
    ensures var s' := DoBeginTimeout(s, j);
            && Running(s', j) && MyPc(s', j) == Cancelling(c) && Running(s', i) && MyPc(s', i) == IoReady(c)
            && Me(s', i) == Me(s, i) && Me(s', j) == Me(s, j)
            && s'.p.table == s.p.table && |s'.calls| == |s.calls| && SameCall(s.calls[c], s'.calls[c])
            && s'.calls[c].cancelled.Some? && s'.calls[c].result.None?
            && forall g :: 0 <= g < |s'.p.fl.fibers| && g != Me(s, j) ==> s'.p.fl.fibers[g].pc != Cancelling(c)
  {
    hide SysInv, Vacant;
  }

  /** ... finds nothing to cancel ... */
  lemma NothingToCancel(s: State, i: nat, j: nat, c: nat, granted: bool)
    requires SysInv(s) && Running(s, i) && MyPc(s, i) == IoReady(c) && c < |s.calls| && s.calls[c].fiber == Me(s, i)
    requires Running(s, j) && MyPc(s, j) == Cancelling(c) && Vacant(s.p.table, s.calls[c].fd, s.calls[c].ev)
    requires s.calls[c].cancelled.Some? && s.calls[c].result.None?
    requires forall g :: 0 <= g < |s.p.fl.fibers| && g != Me(s, j) ==> s.p.fl.fibers[g].pc != Cancelling(c)
    ensures CanCancelWait(s, j) && E.Inv(s.p.table)
    ensures var s' := DoCancelWait(s, j, granted);
            && Spent(s', c) && s'.calls == s.calls && s'.p.table == s.p.table
            && Running(s', i) && MyPc(s', i) == IoReady(c) && Me(s', i) == Me(s, i)
  {
    assert E.Inv(s.p.table);
    hide SysInv, E.Inv;
  }

  /** ... and the fiber registers for a wait that is over already. */
  lemma RegistersTooLate(s: State, i: nat, c: nat)
    requires T.Inv(s.p.timers) && E.Inv(s.p.table) && Running(s, i) && MyPc(s, i) == IoReady(c)
    requires Spent(s, c) && s.calls[c].result.None? && s.calls[c].fiber == Me(s, i)
    requires Vacant(s.p.table, s.calls[c].fd, s.calls[c].ev)
    ensures CanIoAdd(s, i, true)
    ensures Stranded(DoIoAdd(s, i, true), c) && DoIoAdd(s, i, true).p.fl == Goto(s.p.fl, Me(s, i), IoYield(c))
  {
    var call := s.calls[c];
    var w := FiberOf(Me(s, i));
    assert E.Inv(s.p.table);
    E.AddEventKeeps(s.p.table, call.fd, call.ev, w, true);
    var r := E.AddEvent(s.p.table, call.fd, call.ev, w, true);
    assert r.Done?;
    HoldsTheFiber(r.table, call.fd, call.ev, Me(s, i));
    assert |s.p.table.ctxs| >= 32;
    hide SysInv, E.Inv, E.AddEvent, Registered;
  }

  lemma HoldsTheFiber(t: E.Table, fd: nat, e: E.Event, f: FiberId)
    requires E.Inv(t) && fd < |t.ctxs| && E.Has(t.ctxs[fd].events, e) && E.Waiter(t.ctxs[fd].Get(e)) == [FiberOf(f)]
    ensures Registered(t, fd, e, f)
  {
    assert E.CtxOk(t.ctxs[fd], fd);
  }

  /** Three actions: the closure runs to its end on one worker, then the fiber on the other registers.
      Nothing it armed will wake it. */
  lemma TimeoutBeforeTheWait(s: State, i: nat, j: nat, c: nat) returns (acts: seq<Action>)
    requires SysInv(s) && Crossing(s, i, j, c) && CanBeginTimeout(s, j) && MyPc(s, j).cb.call == c
    ensures acts == [ByFiber(j, BeginTimeout), ByFiber(j, CancelWait(true)), ByFiber(i, IoAdd(true))]
    ensures Stranded(Run(s, acts), c)
  {
    acts := [ByFiber(j, BeginTimeout), ByFiber(j, CancelWait(true)), ByFiber(i, IoAdd(true))];
    FlagIsSet(s, i, j, c);
    var s1 := DoBeginTimeout(s, j);
    Step(s, acts[0], s1);
    NothingToCancel(s1, i, j, c, true);
    var s2 := DoCancelWait(s1, j, true);
    Step(s1, acts[1], s2);
    RegistersTooLate(s2, i, c);
    var s3 := DoIoAdd(s2, i, true);
    Step(s2, acts[2], s3);
    hide SysInv, Do, Can, Crossing, Stranded, DoBeginTimeout, DoCancelWait, DoIoAdd, Spent;
    ThreeSteps(s, acts, s1, s2, s3);
  }

  lemma Step(s: State, a: Action, s': State)
    requires SysInv(s) && Can(s, a) && s' == Do(s, a)
    ensures SysInv(s')
  {
    DoKeeps(s, a);
  }

  lemma ThreeSteps(s: State, acts: seq<Action>, s1: State, s2: State, s3: State)
    requires |acts| == 3 && SysInv(s) && SysInv(s1) && SysInv(s2) && SysInv(s3)
    requires Can(s, acts[0]) && s1 == Do(s, acts[0]) && Can(s1, acts[1]) && s2 == Do(s1, acts[1])
    requires Can(s2, acts[2]) && s3 == Do(s2, acts[2])
    ensures Run(s, acts) == s3
  {
    hide SysInv, Do, Can;
    assert acts[1..][0] == acts[1] && acts[1..][1..] == [acts[2]] && [acts[2]][1..] == [];
    assert Run(s2, [acts[2]]) == s3;
    assert Run(s1, acts[1..]) == s3;
  }
}
