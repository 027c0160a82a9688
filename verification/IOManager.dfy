/** The event table as objects: contexts that are updated in place, a vector of them that grows, the
    pending counter, and the kernel's interest list beside them. Every operation is tied to the table as
    a value (`EventSpec`), where its properties are proved. */
module IOManagers {
  import opened Common
  import opened EventSpec
  import opened EventSteps
  import opened Schedulers
  import F = Fleet

  /** `FdContext::EventContext` */
  datatype EventContext = EventContext(scheduler: Scheduler?, fiber: Fiber?, cb: Option<Callback>)
  {
    function ToSlot(): Slot {
      Slot(scheduler != null, if fiber != null then Some(fiber.id) else None, cb)
    }

    predicate Carries(w: Content) {
      match w
      case CallbackOf(f) => cb == Some(f) && fiber == null
      case FiberOf(f) => cb == None && fiber != null && fiber.id == f
    }

    /** What `triggerEvent` leaves behind. */
    function Emptied(): EventContext {
      if cb.Some? then this.(cb := None, scheduler := null) else this.(fiber := null, scheduler := null)
    }

    /** What `triggerEvent` hands to the scheduler. */
    function ToItem(): Item {
      if cb.Some? then Item(null, cb, -1) else Item(fiber, None, -1)
    }
  }

  const NO_CONTEXT: EventContext := EventContext(null, null, None)

  class FdContext {
    const fd: nat
    var events: Mask
    var read: EventContext
    var write: EventContext

    constructor (fd: nat)
      ensures this.fd == fd && State() == Ctx(fd, NONE, EMPTY, EMPTY) && read == write == NO_CONTEXT
    {
      this.fd, events, read, write := fd, NONE, NO_CONTEXT, NO_CONTEXT;
    }

    function State(): Ctx
      reads this
    {
      Ctx(fd, events, read.ToSlot(), write.ToSlot())
    }

    /** `getContext` */
    function Get(e: Event): EventContext
      reads this
    {
      match e case READ => read case WRITE => write
    }

    method Put(e: Event, x: EventContext)
      modifies this`read, this`write
      ensures e.READ? ==> read == x && write == old(write)
      ensures e.WRITE? ==> write == x && read == old(read)
    {
      match e
      case READ => read := x;
      case WRITE => write := x;
    }

    method ResetContext(e: Event)
      modifies this`read, this`write
      ensures e.READ? ==> read == NO_CONTEXT && write == old(write)
      ensures e.WRITE? ==> write == NO_CONTEXT && read == old(read)
    {
      Put(e, NO_CONTEXT);
    }

    /** Asserts that the direction is registered. The waiter moves to the end of its scheduler's queue. */
    method TriggerEvent(e: Event)
      requires Has(events, e)
      requires Get(e).scheduler != null && (Get(e).fiber != null || Get(e).cb.Some?)
      modifies this, Get(e).scheduler`fibers, Get(e).scheduler`pipe
      ensures State() == Trigger(old(State()), e)
      ensures e.READ? ==> read == old(read).Emptied() && write == old(write)
      ensures e.WRITE? ==> write == old(write).Emptied() && read == old(read)
      ensures old(Get(e).scheduler).fibers == old(Get(e).scheduler.fibers) + [old(Get(e)).ToItem()]
    {
      TriggerIs(fd, events, read, write, e);
      hide Has, Less, Trigger;
      events := Less(events, e);
      var ctx := Get(e);
      if ctx.cb.Some? {
        ctx.scheduler.Schedule(null, ctx.cb, -1);
        Put(e, ctx.(cb := None, scheduler := null));
      } else {
        ctx.scheduler.Schedule(ctx.fiber, None, -1);
        Put(e, ctx.(fiber := null, scheduler := null));
      }
    }
  }

  lemma TriggerIs(fd: nat, events: Mask, read: EventContext, write: EventContext, e: Event)
    ensures Trigger(Ctx(fd, events, read.ToSlot(), write.ToSlot()), e)
         == if e == READ then Ctx(fd, Less(events, e), read.Emptied().ToSlot(), write.ToSlot())
            else Ctx(fd, Less(events, e), read.ToSlot(), write.Emptied().ToSlot())
  {
    hide Less;
  }

  lemma RegisterIs(c: Ctx, e: Event, x: EventContext, w: Content)
    requires x.scheduler != null && x.Carries(w)
    ensures Register(c, e, w)
         == if e == READ then Ctx(c.fd, More(c.events, e), x.ToSlot(), c.write)
            else Ctx(c.fd, More(c.events, e), c.read, x.ToSlot())
  {
    hide More;
  }

  /** The contents went to the end of the queue, in order and unpinned. */
  predicate Appended(before: seq<Item>, after: seq<Item>, woken: seq<Content>) {
    && |after| == |before| + |woken| && before <= after
    && forall i :: |before| <= i < |after| ==> after[i].Full() && after[i].ToEntry() == Entry(woken[i - |before|], -1)
  }

  lemma StillFull(before: seq<Item>, after: seq<Item>, woken: seq<Content>)
    requires Appended(before, after, woken) && forall i :: 0 <= i < |before| ==> before[i].Full()
    ensures forall i :: 0 <= i < |after| ==> after[i].Full()
  {}

  lemma AppendedTwice(a: seq<Item>, b: seq<Item>, c: seq<Item>, v: seq<Content>, w: seq<Content>)
    requires Appended(a, b, v) && Appended(b, c, w)
    ensures Appended(a, c, v + w)
  {
    forall i | |a| <= i < |c| ensures c[i].Full() && c[i].ToEntry() == Entry((v + w)[i - |a|], -1) {
      if i < |b| {
        assert c[i] == b[i];
      }
    }
  }

  lemma WaiterIs(x: EventContext)
    requires SlotOk(true, x.ToSlot())
    ensures x.ToItem().Full() && Waiter(x.ToSlot()) == [x.ToItem().ToEntry().content] && x.ToItem().ToEntry().thread == -1
    ensures x.scheduler != null && (x.fiber != null || x.cb.Some?)
  {}

  /** An element of the `events` buffer: the wake-up pipe, or a context and what was reported for it. */
  datatype Report = Pipe | Ready(ctx: FdContext, events: Mask)

  class IOManager {
    const sched: Scheduler
    var fdContexts: seq<FdContext>
    var pendingEventCount: int
    /** The interest list behind `m_epfd`, without the wake-up pipe. */
    var kernel: map<nat, Mask>
    /** The table as a value. */
    ghost var table: Table

    /** The objects and the value agree; slots that point to a scheduler point to this one. */
    ghost predicate Mirrors()
      reads this, fdContexts
    {
      table.pending == pendingEventCount && table.kernel == kernel && MirrorsContexts()
    }

    ghost predicate MirrorsContexts()
      reads this, fdContexts
    {
      && |table.ctxs| == |fdContexts|
      && (forall i :: 0 <= i < |fdContexts| ==> Same(fdContexts[i], table.ctxs[i], i))
    }

    ghost predicate Known(c: FdContext)
      reads this
    {
      c.fd < |fdContexts| && fdContexts[c.fd] == c
    }

    ghost predicate Same(c: FdContext, v: Ctx, i: nat)
      reads c
    {
      && c.fd == i && c.State() == v
      && (c.read.scheduler == null || c.read.scheduler == sched)
      && (c.write.scheduler == null || c.write.scheduler == sched)
    }

    ghost predicate Valid()
      reads this, fdContexts, sched`fibers
    {
      Mirrors() && Inv(table) && (forall i :: 0 <= i < |sched.fibers| ==> sched.fibers[i].Full())
    }

    constructor (sched: Scheduler)
      requires forall i :: 0 <= i < |sched.fibers| ==> sched.fibers[i].Full()
      ensures Valid() && this.sched == sched && table == EventSpec.Table(Resize([], 32), 0, map[])
    {
      this.sched, fdContexts, pendingEventCount, kernel := sched, [], 0, map[];
      table := EventSpec.Table([], 0, map[]);
      new;
      EmptyTable();
      hide Inv, Resize;
      ContextResize(32);
    }

    /** `epoll_ctl` */
    method EpollCtl(op: CtlOp, fd: nat, mask: Mask, granted: bool) returns (rt: int)
      modifies this`kernel
      ensures var k := Ctl(old(kernel), op, fd, mask, granted); kernel == k.0 && rt == if k.1 then 0 else -1
      ensures rt != 0 ==> kernel == old(kernel)
    {
      var k := Ctl(kernel, op, fd, mask, granted);
      kernel := k.0;
      rt := if k.1 then 0 else -1;
    }

    /** Contexts that exist stay the same objects, missing ones are made, each for its own index. */
    method ContextResize(size: nat)
      requires Mirrors()
      modifies this`fdContexts, this`table
      ensures Mirrors() && table == old(table).(ctxs := Resize(old(table.ctxs), size))
      ensures size >= |old(fdContexts)| ==> old(fdContexts) <= fdContexts
      ensures forall i :: |old(fdContexts)| <= i < size ==> fresh(fdContexts[i])
    {
      ghost var before := fdContexts;
      if size < |fdContexts| {
        fdContexts := fdContexts[..size];
      }
      for i := 0 to size
        invariant table == old(table)
        invariant |fdContexts| == if i > |before| then i else if size < |before| then size else |before|
        invariant forall k :: 0 <= k < |fdContexts| && k < |before| ==> fdContexts[k] == before[k]
        invariant forall k :: |before| <= k < |fdContexts| ==>
                    fresh(fdContexts[k]) && Same(fdContexts[k], Ctx(k, NONE, EMPTY, EMPTY), k)
      {
        if i >= |fdContexts| {
          var c := new FdContext(i);
          fdContexts := fdContexts + [c];
        }
      }
      table := table.(ctxs := Resize(table.ctxs, size));
    }

    /** The context of a descriptor; the vector grows if it has none. */
    method ContextFor(fd: nat) returns (fdCtx: FdContext)
      requires Valid()
      modifies this`fdContexts, this`table
      ensures Valid() && old(fdContexts) <= fdContexts && table == Grown(old(table), fd)
      ensures Known(fdCtx) && fdCtx.fd == fd && fdCtx.State() == table.ctxs[fd]
      ensures forall i :: |old(fdContexts)| <= i < |fdContexts| ==> fresh(fdContexts[i])
    {
      GrowKeepsInv(table, fd);
      hide Inv, Resize;
      if |fdContexts| <= fd {
        ContextResize(fd * 3 / 2);
      }
      fdCtx := fdContexts[fd];
      assert Same(fdCtx, table.ctxs[fd], fd);
    }

    /** The rest of `addEvent`, from `epoll_ctl` on. Asserts that the slot is empty. */
    method Enter(fdCtx: FdContext, e: Event, eventCtx: EventContext, ghost w: Content, granted: bool) returns (rt: int)
      requires Mirrors() && Known(fdCtx) && !Has(fdCtx.events, e) && fdCtx.Get(e).ToSlot() == EMPTY
      requires eventCtx.Carries(w) && eventCtx.scheduler == sched
      modifies this`pendingEventCount, this`kernel, this`table, fdCtx
      ensures Mirrors()
      ensures (table, rt) == EventSteps.Enter(old(table), fdCtx.fd, e, w, granted)
    {
      hide Ctl, Has, More, Edge, Register, Inv;
      ghost var fd := fdCtx.fd;
      ghost var c := fdCtx.State();
      assert Same(fdCtx, table.ctxs[fd], fd);
      var op := if fdCtx.events != NONE then MOD else ADD;
      rt := EpollCtl(op, fdCtx.fd, Edge(More(fdCtx.events, e)), granted);
      if rt != 0 {
        return -1;
      }
      pendingEventCount := pendingEventCount + 1;
      fdCtx.events := More(fdCtx.events, e);
      fdCtx.Put(e, eventCtx);
      RegisterIs(c, e, eventCtx, w);
      table := EventSpec.Table(table.ctxs[fd := Register(c, e, w)], pendingEventCount, kernel);
      return 0;
    }

    /** The table and the return value of an operation. */
    ghost predicate Gives(r: Result, rt: int)
      reads this`table
    {
      r.Done? && table == r.table && rt == if r.ok then 0 else -1
    }

    /** `addEvent`: for the callback, or for the running fiber if there is none. Asserts that the direction
        is free, and that the running fiber is EXEC. */
    method AddEvent(fd: nat, e: Event, cb: Option<Callback>, self: Fiber, granted: bool) returns (rt: int)
      requires Valid() && (fd < |fdContexts| ==> !Has(fdContexts[fd].events, e))
      requires cb.None? ==> self.state == F.EXEC
      modifies this`fdContexts, this`pendingEventCount, this`kernel, this`table
      modifies if fd < |fdContexts| then {fdContexts[fd]} else {}
      ensures Valid() && old(fdContexts) <= fdContexts
      ensures forall i :: |old(fdContexts)| <= i < |fdContexts| ==> fresh(fdContexts[i])
      ensures var w := if cb.Some? then CallbackOf(cb.value) else FiberOf(self.id);
              Gives(EventSpec.AddEvent(old(table), fd, e, w, granted), rt)
    {
      ghost var w := if cb.Some? then CallbackOf(cb.value) else FiberOf(self.id);
      AddEventIs(table, fd, e, w, granted);
      hide Inv, EventSpec.AddEvent, EventSteps.Enter, Grown, Has, MirrorsContexts, Same;
      var fdCtx := ContextFor(fd);
      assert fdCtx.State().Get(e) == fdCtx.Get(e).ToSlot();
      rt := Enter(fdCtx, e, if cb.Some? then EventContext(sched, null, cb) else EventContext(sched, self, None), w, granted);
    }

    // -------------------------------------------------------------- operations that let a waiter go

    /** `if (wanted) { triggerEvent(e); --m_pendingEventCount; }` */
    method TriggerWanted(fdCtx: FdContext, e: Event, wanted: bool)
      requires MirrorsContexts() && Known(fdCtx) && (wanted ==> Has(fdCtx.events, e) && SlotOk(true, fdCtx.Get(e).ToSlot()))
      modifies fdCtx, sched`fibers, sched`pipe, this`pendingEventCount, this`table
      ensures MirrorsContexts()
      ensures var c := old(fdCtx.State());
              && table == old(table).(ctxs := old(table.ctxs)[fdCtx.fd := TriggerIf(c, e, wanted).0])
              && pendingEventCount == old(pendingEventCount) - TriggerIf(c, e, wanted).1
              && Appended(old(sched.fibers), sched.fibers, TriggerIf(c, e, wanted).2)
    {
      hide Has, Trigger;
      ghost var c := fdCtx.State();
      assert Same(fdCtx, table.ctxs[fdCtx.fd], fdCtx.fd);
      if wanted {
        WaiterIs(fdCtx.Get(e));
        fdCtx.TriggerEvent(e);
        pendingEventCount := pendingEventCount - 1;
        table := table.(ctxs := table.ctxs[fdCtx.fd := Trigger(c, e)]);
      } else {
        assert table.ctxs == table.ctxs[fdCtx.fd := c];
      }
    }

    method CancelEvent(fd: nat, e: Event, granted: bool) returns (ok: bool)
      requires Valid()
      modifies this`pendingEventCount, this`kernel, this`table, sched`fibers, sched`pipe
      modifies if fd < |fdContexts| then {fdContexts[fd]} else {}
      ensures Valid()
      ensures Wakes(EventSpec.CancelEvent(old(table), fd, e, granted), ok, old(sched.fibers))
    {
      hide Inv, EventSpec.CancelEvent, Has, Less, Edge, Ctl, Trigger, Waiter;
      CancelEventIs(table, fd, e, granted);
      if |fdContexts| <= fd {
        return false;
      }
      var fdCtx := fdContexts[fd];
      assert Same(fdCtx, table.ctxs[fd], fd);
      if !Has(fdCtx.events, e) {
        return false;
      }
      var newEvents := Less(fdCtx.events, e);
      var rt := EpollCtl(if newEvents != NONE then MOD else DEL, fd, Edge(newEvents), granted);
      if rt != 0 {
        return false;
      }
      TriggerWanted(fdCtx, e, true);
      StillFull(old(sched.fibers), sched.fibers, Waiter(old(table.ctxs[fd].Get(e))));
      table := EventSpec.Table(table.ctxs, pendingEventCount, kernel);
      return true;
    }

    /** What an operation that wakes waiters gives: the table, the result, and the queue. */
    ghost predicate Wakes(r: Result, ok: bool, before: seq<Item>)
      reads this`table, sched`fibers
    {
      r.Done? && table == r.table && ok == r.ok && Appended(before, sched.fibers, r.woken)
    }

    /** The waiter is dropped: nothing goes to the queue. */
    method DelEvent(fd: nat, e: Event, granted: bool) returns (ok: bool)
      requires Valid()
      modifies this`pendingEventCount, this`kernel, this`table
      modifies if fd < |fdContexts| then {fdContexts[fd]} else {}
      ensures Valid()
      ensures Wakes(EventSpec.DelEvent(old(table), fd, e, granted), ok, sched.fibers)
    {
      hide Inv, EventSpec.DelEvent, Has, Less, Edge, Ctl, Waiter;
      DelEventIs(table, fd, e, granted);
      if |fdContexts| <= fd {
        return false;
      }
      var fdCtx := fdContexts[fd];
      assert Same(fdCtx, table.ctxs[fd], fd);
      if !Has(fdCtx.events, e) {
        return false;
      }
      var newEvents := Less(fdCtx.events, e);
      var rt := EpollCtl(if newEvents != NONE then MOD else DEL, fd, Edge(newEvents), granted);
      if rt != 0 {
        return false;
      }
      pendingEventCount := pendingEventCount - 1;
      fdCtx.events := newEvents;
      fdCtx.ResetContext(e);
      table := EventSpec.Table(table.ctxs[fd := Unregister(table.ctxs[fd], e)], pendingEventCount, kernel);
      return true;
    }

    /** Both directions, the reader first. */
    method TriggerBoth(fdCtx: FdContext, read: bool, write: bool)
      requires MirrorsContexts() && Known(fdCtx) && CtxOk(fdCtx.State(), fdCtx.fd)
      requires (read ==> Has(fdCtx.events, READ)) && (write ==> Has(fdCtx.events, WRITE))
      modifies fdCtx, sched`fibers, sched`pipe, this`pendingEventCount, this`table
      ensures MirrorsContexts()
      ensures var both := Both(old(fdCtx.State()), read, write);
              && table == old(table).(ctxs := old(table.ctxs)[fdCtx.fd := both.0])
              && fdCtx.State() == both.0
              && pendingEventCount == old(pendingEventCount) - both.1
              && Appended(old(sched.fibers), sched.fibers, both.2)
    {
      ghost var c := fdCtx.State();
      ghost var before := sched.fibers;
      OtherDirection(c, fdCtx.fd, read);
      hide Has, TriggerIf, CtxOk, SlotOk;
      TriggerWanted(fdCtx, READ, read);
      assert Same(fdCtx, table.ctxs[fdCtx.fd], fdCtx.fd);
      ghost var between := sched.fibers;
      ghost var one := TriggerIf(c, READ, read);
      TriggerWanted(fdCtx, WRITE, write);
      assert Same(fdCtx, table.ctxs[fdCtx.fd], fdCtx.fd);
      AppendedTwice(before, between, sched.fibers, one.2, TriggerIf(one.0, WRITE, write).2);
    }

    method CancelAll(fd: nat, granted: bool) returns (ok: bool)
      requires Valid()
      modifies this`pendingEventCount, this`kernel, this`table, sched`fibers, sched`pipe
      modifies if fd < |fdContexts| then {fdContexts[fd]} else {}
      ensures Valid()
      ensures Wakes(EventSpec.CancelAll(old(table), fd, granted), ok, old(sched.fibers))
    {
      hide Inv, EventSpec.CancelAll, Has, Ctl, Both, CtxOk;
      CancelAllIs(table, fd, granted);
      if |fdContexts| <= fd {
        return false;
      }
      var fdCtx := fdContexts[fd];
      assert Same(fdCtx, table.ctxs[fd], fd);
      if fdCtx.events == NONE {
        return false;
      }
      var rt := EpollCtl(DEL, fd, NONE, granted);
      if rt != 0 {
        return false;
      }
      ghost var both := Both(table.ctxs[fd], Has(fdCtx.events, READ), Has(fdCtx.events, WRITE));
      TriggerBoth(fdCtx, Has(fdCtx.events, READ), Has(fdCtx.events, WRITE));
      StillFull(old(sched.fibers), sched.fibers, both.2);
      assert fdCtx.events == NONE;
      table := EventSpec.Table(table.ctxs, pendingEventCount, kernel);
      return true;
    }

    // -------------------------------------------------------------- the dispatch loop of idle

    /** One turn for a reported context. Asserts, through `triggerEvent`, that a direction it triggers is
        registered. */
    method DispatchOne(fdCtx: FdContext, reported: Mask, granted: bool) returns (ok: bool)
      requires Valid() && Known(fdCtx) && EventSpec.Dispatch(table, fdCtx.fd, reported, granted).Done?
      modifies fdCtx, this`pendingEventCount, this`kernel, this`table, sched`fibers, sched`pipe
      ensures Valid()
      ensures Wakes(EventSpec.Dispatch(old(table), fdCtx.fd, reported, granted), ok, old(sched.fibers))
    {
      hide Inv, EventSpec.Dispatch, Has, Ctl, Both, CtxOk, RealEvents, Overlaps, Minus, Edge;
      ghost var fd := fdCtx.fd;
      assert Same(fdCtx, table.ctxs[fd], fd);
      DispatchIs(table, fd, reported, granted);
      var realEvents := ReadReport(reported);
      if !Overlaps(fdCtx.events, realEvents) {
        return false;
      }
      var leftEvents := Minus(fdCtx.events, realEvents);
      var rt := EpollCtl(if leftEvents != NONE then MOD else DEL, fdCtx.fd, Edge(leftEvents), granted);
      if rt != 0 {
        return false;
      }
      ghost var both := Both(table.ctxs[fd], Has(realEvents, READ), Has(realEvents, WRITE));
      TriggerBoth(fdCtx, Has(realEvents, READ), Has(realEvents, WRITE));
      StillFull(old(sched.fibers), sched.fibers, both.2);
      table := EventSpec.Table(table.ctxs, pendingEventCount, kernel);
      return true;
    }

    /** The events that the loop reads out of a report. */
    static method ReadReport(reported: Mask) returns (realEvents: Mask)
      ensures realEvents == RealEvents(reported)
    {
      var events := reported;
      if events & (EPOLLERR | EPOLLHUP) != NONE {
        events := events | EPOLLIN | EPOLLOUT;
      }
      realEvents := NONE;
      if events & EPOLLIN != NONE {
        realEvents := realEvents | Bit(READ);
      }
      if events & EPOLLOUT != NONE {
        realEvents := realEvents | Bit(WRITE);
      }
    }

    function Turns(events: seq<Report>, granted: seq<bool>): (r: seq<Turn>)
      requires |events| == |granted|
      ensures |r| == |events|
    {
      seq(|events|, i requires 0 <= i < |events| =>
            match events[i] case Pipe => Drain case Ready(c, m) => Handle(c.fd, m, granted[i]))
    }

    /** The loop over what `epoll_wait` returned: `rt` reports, for each whether the kernel grants the
        call that follows. */
    method DispatchLoop(events: array<Report>, rt: nat, granted: seq<bool>)
      requires Valid() && rt <= events.Length && |granted| == rt
      requires forall i :: 0 <= i < rt && events[i].Ready? ==> Known(events[i].ctx)
      requires DispatchAll(table, Turns(events[..rt], granted)).Done?
      modifies fdContexts, this`pendingEventCount, this`kernel, this`table, sched`fibers, sched`pipe
      ensures Valid()
      ensures var r := DispatchAll(old(table), Turns(old(events[..rt]), granted));
              table == r.table && Appended(old(sched.fibers), sched.fibers, r.woken)
    {
      hide Inv, EventSpec.Dispatch, MirrorsContexts, DispatchAll;
      ghost var turns := Turns(events[..rt], granted);
      ghost var all := DispatchAll(table, turns);
      ghost var woken: seq<Content> := [];
      assert turns[0..] == turns;
      for i := 0 to rt
        invariant Valid() && DispatchAll(table, turns[i..]).Done?
        invariant DispatchAll(table, turns[i..]).table == all.table
        invariant woken + DispatchAll(table, turns[i..]).woken == all.woken
        invariant Appended(old(sched.fibers), sched.fibers, woken)
      {
        TurnAt(table, turns, i);
        match events[i]
        case Pipe =>
          continue;
        case Ready(fdCtx, reported) =>
          ghost var between := sched.fibers;
          ghost var r := EventSpec.Dispatch(table, fdCtx.fd, reported, granted[i]);
          Regroup(woken, r.woken, DispatchAll(r.table, turns[i + 1..]).woken);
          var _ := DispatchOne(fdCtx, reported, granted[i]);
          AppendedTwice(old(sched.fibers), between, sched.fibers, woken, r.woken);
          woken := woken + r.woken;
      }
      NoTurnLeft(table, turns);
    }
  }
}
