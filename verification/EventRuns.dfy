/** Whole runs of the event table: any sequence of `addEvent`, `delEvent`, `cancelEvent`, `cancelAll`
    and dispatch turns, with kernel calls granted or refused at will, up to the first failed assertion. */
module EventRuns {
  import opened Common
  import opened Sums
  import opened EventSpec
  import EventSteps

  datatype Op =
    | Add(fd: nat, e: Event, w: Content, granted: bool)
    | Del(fd: nat, e: Event, granted: bool)
    | Cancel(fd: nat, e: Event, granted: bool)
    | CancelEvery(fd: nat, granted: bool)
    | Report(fd: nat, reported: Mask, granted: bool)

  /** `accepted`, `woken` and `dropped` log the waiters of successful `addEvent`s, those moved to the
      scheduler's queue, and those thrown away by `delEvent`. */
  datatype World = World(table: Table, accepted: seq<Content>, woken: seq<Content>, dropped: seq<Content>, aborted: bool)

  const Start: World := World(Table(Resize([], 32), 0, map[]), [], [], [], false)

  function Effect(t: Table, op: Op): Result
    requires |t.ctxs| >= 32
  {
    match op
    case Add(fd, e, w, granted) => AddEvent(t, fd, e, w, granted)
    case Del(fd, e, granted) => DelEvent(t, fd, e, granted)
    case Cancel(fd, e, granted) => CancelEvent(t, fd, e, granted)
    case CancelEvery(fd, granted) => CancelAll(t, fd, granted)
    case Report(fd, reported, granted) => Dispatch(t, fd, reported, granted)
  }

  function Apply(w: World, op: Op): World
    requires |w.table.ctxs| >= 32
  {
    if w.aborted then w
    else
      match Effect(w.table, op)
      case Aborted => w.(aborted := true)
      case Done(t, ok, woken, dropped) =>
        World(t, if op.Add? && ok then w.accepted + [op.w] else w.accepted, w.woken + woken, w.dropped + dropped, false)
  }

  /** Conservation: every accepted waiter is still registered, or was woken, or was dropped; contents
      are counted, so none is lost, duplicated or altered. */
  ghost predicate Conserved(w: World) {
    && (forall x :: Occurs(w.accepted, x) == Waiting(w.table, x) + Occurs(w.woken, x) + Occurs(w.dropped, x))
    && |w.accepted| == w.table.pending + |w.woken| + |w.dropped|
  }

  ghost predicate RunInv(w: World) { Inv(w.table) && Conserved(w) }

  /** The two ways a step can fail an assertion. */
  predicate Fails(t: Table, op: Op) {
    match op
    case Add(fd, e, _, _) => fd < |t.ctxs| && Has(t.ctxs[fd].events, e)
    case Report(fd, reported, granted) => granted && Overreported(t, fd, reported)
    case _ => false
  }

  lemma EffectKeeps(t: Table, op: Op)
    requires Inv(t)
    ensures var r := Effect(t, op);
            && (r.Aborted? <==> Fails(t, op))
            && Kept(t, r, if op.Add? && r.Done? && r.ok then [op.w] else [])
  {
    match op
    case Add(fd, e, w, granted) => AddEventKeeps(t, fd, e, w, granted);
    case Del(fd, e, granted) =>
      DelEventIsSilentCancel(t, fd, e, granted);
      CancelEventKeeps(t, fd, e, granted);
    case Cancel(fd, e, granted) => CancelEventKeeps(t, fd, e, granted);
    case CancelEvery(fd, granted) => CancelAllKeeps(t, fd, granted);
    case Report(fd, reported, granted) => DispatchKeeps(t, fd, reported, granted);
  }

  lemma StepKeepsInv(w: World, op: Op)
    requires RunInv(w)
    ensures RunInv(Apply(w, op))
    ensures Apply(w, op).aborted <==> w.aborted || Fails(w.table, op)
  {
    hide Effect, Fails;
    EffectKeeps(w.table, op);
    var r := Effect(w.table, op);
    if !w.aborted && r.Done? {
      var accepted := if op.Add? && r.ok then [op.w] else [];
      assert Apply(w, op).accepted == w.accepted + accepted;
      forall x
        ensures Occurs(w.accepted + accepted, x)
                == Waiting(r.table, x) + Occurs(w.woken + r.woken, x) + Occurs(w.dropped + r.dropped, x)
      {
        OccursConcat(w.accepted, accepted, x);
        OccursConcat(w.woken, r.woken, x);
        OccursConcat(w.dropped, r.dropped, x);
      }
    }
  }

  ghost function Run(w: World, ops: seq<Op>): (w': World)
    requires RunInv(w)
    ensures RunInv(w')
    decreases |ops|
  {
    if ops == [] then w
    else
      StepKeepsInv(w, ops[0]);
      Run(Apply(w, ops[0]), ops[1..])
  }

  lemma StartInv()
    ensures RunInv(Start)
  {
    EventSteps.EmptyTable();
    forall x ensures Waiting(Start.table, x) == 0 {
      IdleHasNoWaiters(32, x);
    }
  }

  /** The event-table invariant and waiter conservation, over every run. */
  lemma TableOverRuns(ops: seq<Op>, fd: nat, e: Event, x: Content)
    ensures RunInv(Start)
    ensures var w := Run(Start, ops); var t := w.table;
            && (fd < |t.ctxs| ==>
                  && t.ctxs[fd].fd == fd
                  && (Has(t.ctxs[fd].events, e) <==> t.ctxs[fd].Get(e).scheduler)
                  && (Has(t.ctxs[fd].events, e) <==> t.ctxs[fd].Get(e).fiber.Some? != t.ctxs[fd].Get(e).cb.Some?)
                  && (!Has(t.ctxs[fd].events, e) <==> t.ctxs[fd].Get(e) == EMPTY)
                  && (fd in t.kernel <==> t.ctxs[fd].events != NONE)
                  && (fd in t.kernel ==> t.kernel[fd] == EPOLLET | t.ctxs[fd].events))
            && (fd in t.kernel ==> fd < |t.ctxs|)
            && t.pending == Sum(t.ctxs, Bits())
            && Occurs(w.accepted, x) == Waiting(t, x) + Occurs(w.woken, x) + Occurs(w.dropped, x)
            && |w.accepted| == t.pending + |w.woken| + |w.dropped|
  {
    StartInv();
    var t := Run(Start, ops).table;
    assert fd < |t.ctxs| ==> CtxOk(t.ctxs[fd], fd);
  }

  /** No operation of the list fails when its turn comes. */
  ghost predicate Polite(w: World, ops: seq<Op>)
    requires RunInv(w)
    decreases |ops|
  {
    ops == [] || (!Fails(w.table, ops[0]) && (StepKeepsInv(w, ops[0]); Polite(Apply(w, ops[0]), ops[1..])))
  }

  /** A run ends in a failed assertion exactly when some step adds a direction that is already
      registered, or is told of an unregistered direction together with a registered one. */
  lemma {:induction false} AbortsExactly(w: World, ops: seq<Op>)
    requires RunInv(w) && !w.aborted
    ensures Run(w, ops).aborted <==> !Polite(w, ops)
    decreases |ops|
  {
    if ops != [] {
      StepKeepsInv(w, ops[0]);
      if Fails(w.table, ops[0]) {
        AbortedStays(Apply(w, ops[0]), ops[1..]);
      } else {
        AbortsExactly(Apply(w, ops[0]), ops[1..]);
      }
    }
  }

  lemma {:induction false} AbortedStays(w: World, ops: seq<Op>)
    requires RunInv(w) && w.aborted
    ensures Run(w, ops) == w
    decreases |ops|
  {
    if ops != [] {
      StepKeepsInv(w, ops[0]);
      AbortedStays(w, ops[1..]);
    }
  }

  /** Any error or hang-up on a descriptor on which a single direction waits is such a step. */
  lemma HangUpAborts(t: Table, fd: nat, e: Event, reported: Mask)
    requires Inv(t) && fd < |t.ctxs| && t.ctxs[fd].events == Bit(e)
    requires reported & (EPOLLERR | EPOLLHUP) != NONE
    ensures Dispatch(t, fd, reported, true).Aborted?
  {
    DispatchKeeps(t, fd, reported, true);
    RealEventsAre(reported);
    var hit := RealEvents(reported);
    assert hit == 5 by { MaskByDirections(hit, 5); }
  }

  /** Dropping the lock before growing lets two threads resize in either order, and the second resize
      may shrink: it keeps the entries exactly when it does not ask for fewer. */
  lemma ResizeKeepsEntries(ctxs: seq<Ctx>, size: nat)
    ensures ctxs <= Resize(ctxs, size) <==> |ctxs| <= size
  {}

  /** A granted `addEvent` of an idle entry registers exactly that waiter. */
  lemma AddToIdle(t: Table, fd: nat, e: Event, x: Content)
    requires Inv(t) && fd < |Grown(t, fd).ctxs| && Grown(t, fd).ctxs[fd] == Ctx(fd, NONE, EMPTY, EMPTY)
    ensures var r := AddEvent(t, fd, e, x, true);
            && r.Done? && r.ok && Inv(r.table)
            && r.table.ctxs == Grown(t, fd).ctxs[fd := Register(Ctx(fd, NONE, EMPTY, EMPTY), e, x)]
            && Waiting(r.table, x) == Waiting(t, x) + 1
  {
    hide Register, AddEvent;
    NoneHasNothing(e);
    AddEventUnfolds(t, fd, e, x, true);
    AddEventKeeps(t, fd, e, x, true);
    SumAppend([], x, Same(x));
    assert [] + [x] == [x];
  }

  lemma NoneHasNothing(e: Event)
    ensures !Has(NONE, e)
  {}

  /** A table that was only sized has no waiters. */
  lemma IdleHasNoWaiters(n: nat, x: Content)
    ensures Sum(Resize([], n), Holds(x)) == 0
  {
    assert Resize([], n) == seq(n - 0, k requires 0 <= k < n - 0 => Ctx(0 + k, NONE, EMPTY, EMPTY));
    assert Waiter(EMPTY) == [];
    FreshTail(0, n, Holds(x));
  }

  // ---------------------------------------------------------------- two threads that grow the vector

  /** A dispatch turn as the loop makes it: from the context that the kernel's `data.ptr` leads to, whether
      or not the vector still holds it. */
  datatype Turned = Stopped | Turned(ctx: Ctx, pending: int, kernel: map<nat, Mask>, ok: bool, woken: seq<Content>)

  function DispatchOn(c: Ctx, pending: int, kernel: map<nat, Mask>, reported: Mask, granted: bool): Turned {
    var hit := RealEvents(reported);
    if !Overlaps(c.events, hit) then Turned(c, pending, kernel, false, [])
    else
      var k := Shrink(kernel, c.fd, Minus(c.events, hit), granted);
      if !k.1 then Turned(c, pending, kernel, false, [])
      else if (Has(hit, READ) && !Has(c.events, READ)) then Stopped
      else
        var r := TriggerIf(c, READ, Has(hit, READ));
        if Has(hit, WRITE) && !Has(r.0.events, WRITE) then Stopped
        else
          var w := TriggerIf(r.0, WRITE, Has(hit, WRITE));
          Turned(w.0, pending - r.1 - w.1, k.0, true, r.2 + w.2)
  }

  /** For a context in the vector that is the turn of `Dispatch`. */
  lemma DispatchOnIsDispatch(t: Table, fd: nat, reported: Mask, granted: bool)
    requires fd < |t.ctxs| && t.ctxs[fd].fd == fd
    ensures var d, r := Dispatch(t, fd, reported, granted), DispatchOn(t.ctxs[fd], t.pending, t.kernel, reported, granted);
            && d.Aborted? == r.Stopped?
            && (d.Done? ==> d.ok == r.ok && d.woken == r.woken && d.table.ctxs == t.ctxs[fd := r.ctx]
                            && d.table.pending == r.pending && d.table.kernel == r.kernel)
  {
    hide RealEvents, Overlaps, Minus, Has, TriggerIf, Shrink;
    assert t.ctxs[fd := t.ctxs[fd]] == t.ctxs;
  }

  /** Both threads saw the vector too small for their descriptors; thread 1 grew it and registered its
      waiter, then thread 2 resized it for its own descriptor. */
  function AfterRace(s: Table, fd1: nat, fd2: nat, e: Event, x: Content): Table
    requires |s.ctxs| >= 32
  {
    match AddEvent(s, fd1, e, x, true)
    case Done(t, _, _, _) => t.(ctxs := Resize(t.ctxs, fd2 * 3 / 2))
    case Aborted => s
  }

  lemma RaceGives(s: Table, fd1: nat, fd2: nat, e: Event, x: Content)
    requires Inv(s) && |s.ctxs| <= fd1 && |s.ctxs| <= fd2
    ensures var c := Register(Ctx(fd1, NONE, EMPTY, EMPTY), e, x);
            var t, u := AddEvent(s, fd1, e, x, true).table, AfterRace(s, fd1, fd2, e, x);
            && fd1 < |t.ctxs| && t.ctxs[fd1] == c && t.pending == s.pending + 1
            && t.kernel == s.kernel[fd1 := Edge(c.events)] && Waiting(t, x) == Waiting(s, x) + 1
            && fd2 < |Grown(s, fd2).ctxs|
            && u == Table(if fd1 < fd2 * 3 / 2 then Grown(s, fd2).ctxs[fd1 := c] else Grown(s, fd2).ctxs, t.pending, t.kernel)
  {
    hide AddEvent, Register, Holds;
    GrowKeepsInv(s, fd1);
    GrowKeepsInv(s, fd2);
    NoneHasNothing(e);
    AddEventUnfolds(s, fd1, e, x, true);
    AddToIdle(s, fd1, e, x);
    var u := AfterRace(s, fd1, fd2, e, x);
    assert u.ctxs == if fd1 < fd2 * 3 / 2 then Grown(s, fd2).ctxs[fd1 := Register(Ctx(fd1, NONE, EMPTY, EMPTY), e, x)]
                     else Grown(s, fd2).ctxs;
  }

  lemma RegisteredIdle(fd: nat, e: Event, x: Content)
    ensures var c := Register(Ctx(fd, NONE, EMPTY, EMPTY), e, x);
            && c.fd == fd && CtxOk(c, fd) && c.events == Bit(e) && c.events != NONE && Has(c.events, e) && Waiter(c.Get(e)) == [x]
            && (forall d :: d != e ==> !Has(c.events, d))
  {}

  /** When the second resize is too small to cover thread 1's descriptor, the vector loses the context with
      the waiter in it; otherwise everything stays. */
  lemma RacingResizeOrphansWaiter(s: Table, fd1: nat, fd2: nat, e: Event, x: Content)
    requires Inv(s) && |s.ctxs| <= fd1 && |s.ctxs| <= fd2
    ensures var t, u := AddEvent(s, fd1, e, x, true).table, AfterRace(s, fd1, fd2, e, x);
            && Waiting(u, x) == Waiting(t, x) - (if fd2 * 3 / 2 <= fd1 then 1 else 0)
            && (CancelEvent(u, fd1, e, true).ok <==> fd1 < fd2 * 3 / 2)
            && u.pending == t.pending && u.kernel == t.kernel
  {
    RaceGives(s, fd1, fd2, e, x);
    GrowKeepsInv(s, fd2);
    RegisteredIdle(fd1, e, x);
    var c := Register(Ctx(fd1, NONE, EMPTY, EMPTY), e, x);
    var g := Grown(s, fd2).ctxs;
    if fd1 < fd2 * 3 / 2 {
      SumUpdate(g, fd1, c, Holds(x));
      HoldsOne(fd1, e, x);
      assert g[fd1] == Ctx(fd1, NONE, EMPTY, EMPTY);
    }
    hide AddEvent, Register, Holds, Inv, Has, AfterRace, Less, Edge, Waiter, Trigger;
  }

  lemma HoldsOne(fd: nat, e: Event, x: Content)
    ensures Holds(x)(Register(Ctx(fd, NONE, EMPTY, EMPTY), e, x)) == 1
    ensures Holds(x)(Ctx(fd, NONE, EMPTY, EMPTY)) == 0
  {
    SumAppend([], x, Same(x));
    assert [] + [x] == [x] && Waiter(EMPTY) == [];
  }

  /** What that means. Nobody can delete or cancel the waiter any more, not even after the vector has grown
      again, and no new event can be added on its descriptor: the kernel already has it. But its readiness
      still wakes it, and until then it counts as pending. */
  lemma OrphanIsReachedByReadinessOnly(s: Table, fd1: nat, fd2: nat, e: Event, x: Content, e': Event, y: Content, granted: bool)
    requires Inv(s) && |s.ctxs| <= fd1 && |s.ctxs| <= fd2 && fd2 * 3 / 2 <= fd1
    ensures var u := AfterRace(s, fd1, fd2, e, x);
            && DelEvent(u, fd1, e', granted) == CancelEvent(u, fd1, e', granted) == CancelAll(u, fd1, granted)
               == Done(u, false, [], [])
            && |u.ctxs| >= 32
            && AddEvent(u, fd1, e', y, granted) == Done(Grown(u, fd1), false, [], [])
            && (forall size :: |u.ctxs| <= size ==>
                  var v := u.(ctxs := Resize(u.ctxs, size));
                  DelEvent(v, fd1, e', granted) == CancelEvent(v, fd1, e', granted) == CancelAll(v, fd1, granted)
                  == Done(v, false, [], []))
            && var c := AddEvent(s, fd1, e, x, true).table.ctxs[fd1];
               var r := DispatchOn(c, u.pending, u.kernel, Bit(e), true);
               r.Turned? && r.ok && r.woken == [x] && r.pending == u.pending - 1 && fd1 !in r.kernel
  {
    RaceGives(s, fd1, fd2, e, x);
    GrowKeepsInv(s, fd2);
    var u := AfterRace(s, fd1, fd2, e, x);
    NoneHasNothing(e');
    OrphanWakes(fd1, e, x, u.pending, u.kernel);
    assert fd1 in u.kernel;
    assert Grown(u, fd1).ctxs[fd1] == Ctx(fd1, NONE, EMPTY, EMPTY);
    forall size | |u.ctxs| <= size
      ensures var v := u.(ctxs := Resize(u.ctxs, size));
              DelEvent(v, fd1, e', granted) == CancelEvent(v, fd1, e', granted) == CancelAll(v, fd1, granted) == Done(v, false, [], [])
    {
      assert fd1 < size ==> Resize(u.ctxs, size)[fd1] == Ctx(fd1, NONE, EMPTY, EMPTY);
    }
    hide AfterRace, Register, Inv, Has, Edge, Less, More, DispatchOn;
  }

  lemma OrphanWakes(fd: nat, e: Event, x: Content, pending: int, kernel: map<nat, Mask>)
    requires fd in kernel
    ensures var r := DispatchOn(Register(Ctx(fd, NONE, EMPTY, EMPTY), e, x), pending, kernel, Bit(e), true);
            r.Turned? && r.ok && r.woken == [x] && r.pending == pending - 1 && fd !in r.kernel
  {
    var c := Register(Ctx(fd, NONE, EMPTY, EMPTY), e, x);
    RegisteredIdle(fd, e, x);
    RealEventsAre(Bit(e));
    OwnBitIsHit(e);
    hide Register, RealEvents, Has, CtxOk, Bit, Waiter;
    MaskMinus(c.events, RealEvents(Bit(e)));
    MaskByDirections(Minus(c.events, RealEvents(Bit(e))), NONE);
  }

  lemma OwnBitIsHit(e: Event)
    ensures var hit := RealEvents(Bit(e));
            (hit == 1 || hit == 4) && forall d :: Has(hit, d) <==> d == e
    ensures !Has(NONE, READ) && !Has(NONE, WRITE)
  {}
}
