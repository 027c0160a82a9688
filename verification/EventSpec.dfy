/** The event table of sylar/iomanager.cpp as a value: per descriptor a mask of registered directions
    and two waiter slots, a global pending count, and the kernel's interest list. */
module EventSpec {
  import opened Common
  import opened Sums

  /** `IOManager::Event` as a parameter, and as bits of a mask. The READ and WRITE bits are EPOLLIN and
      EPOLLOUT. */
  datatype Event = READ | WRITE
  type Mask = bv32

  const NONE: Mask := 0
  const EPOLLIN: Mask := 0x1
  const EPOLLOUT: Mask := 0x4
  const EPOLLERR: Mask := 0x8
  const EPOLLHUP: Mask := 0x10
  const EPOLLET: Mask := 0x8000_0000

  function Bit(e: Event): Mask {
    match e case READ => EPOLLIN case WRITE => EPOLLOUT
  }

  /** `events & ~event`, `events | event`, and what the kernel is given for a mask. */
  function Less(m: Mask, e: Event): Mask { m & !Bit(e) }
  function More(m: Mask, e: Event): Mask { m | Bit(e) }
  function Edge(m: Mask): Mask { EPOLLET | m }

  /** `events & real_events`, as a condition, and `events & ~real_events`. */
  predicate Overlaps(m: Mask, hit: Mask) { m & hit != NONE }
  function Minus(m: Mask, hit: Mask): Mask { m & !hit }

  predicate Has(m: Mask, e: Event) { m & Bit(e) != NONE }

  /** `FdContext::EventContext`; `scheduler` tells whether the pointer is set. */
  datatype Slot = Slot(scheduler: bool, fiber: Option<FiberId>, cb: Option<Callback>)

  const EMPTY: Slot := Slot(false, None, None)

  /** `FdContext`. */
  datatype Ctx = Ctx(fd: nat, events: Mask, read: Slot, write: Slot) {
    function Get(e: Event): Slot {
      match e case READ => read case WRITE => write
    }
    function Set(e: Event, s: Slot): Ctx {
      match e case READ => this.(read := s) case WRITE => this.(write := s)
    }
  }

  datatype Table = Table(ctxs: seq<Ctx>, pending: int, kernel: map<nat, Mask>)

  /** An assertion failure ends the process. `woken` are the contents moved to the scheduler's queue,
      in order; `dropped` those thrown away. */
  datatype Result = Aborted | Done(table: Table, ok: bool, woken: seq<Content>, dropped: seq<Content>)

  // ---------------------------------------------------------------- the kernel

  datatype CtlOp = ADD | MOD | DEL

  /** `epoll_ctl`: ADD of a known descriptor and MOD or DEL of an unknown one fail, and any call may
      fail for reasons of its own (`granted` is false). */
  function Ctl(kernel: map<nat, Mask>, op: CtlOp, fd: nat, mask: Mask, granted: bool): (r: (map<nat, Mask>, bool)) {
    if !granted || (op == ADD) == (fd in kernel) then (kernel, false)
    else if op == DEL then (kernel - {fd}, true)
    else (kernel[fd := mask], true)
  }

  // ---------------------------------------------------------------- one context

  /** The waiter a slot holds, as `triggerEvent` would read it: the callback if there is one. */
  function Waiter(s: Slot): seq<Content> {
    if s.cb.Some? then [CallbackOf(s.cb.value)]
    else if s.fiber.Some? then [FiberOf(s.fiber.value)]
    else []
  }

  /** `FdContext::triggerEvent` after its assertion: the bit is cleared, the content is swapped into
      the queue, the scheduler pointer is cleared. What `schedule` swaps out is what leaves the slot. */
  function Trigger(c: Ctx, e: Event): Ctx {
    var s := c.Get(e);
    var s' := if s.cb.Some? then s.(cb := None, scheduler := false) else s.(fiber := None, scheduler := false);
    c.(events := Less(c.events, e)).Set(e, s')
  }

  /** The end of `addEvent`. */
  function Register(c: Ctx, e: Event, w: Content): Ctx {
    var s := match w
      case CallbackOf(cb) => Slot(true, None, Some(cb))
      case FiberOf(f) => Slot(true, Some(f), None);
    c.(events := More(c.events, e)).Set(e, s)
  }

  /** `resetContext` after the mask update of `delEvent`. */
  function Unregister(c: Ctx, e: Event): Ctx {
    c.(events := Less(c.events, e)).Set(e, EMPTY)
  }

  // ---------------------------------------------------------------- the operations

  /** `contextResize`: entries that exist are kept, missing ones are made. */
  function Resize(ctxs: seq<Ctx>, size: nat): (r: seq<Ctx>)
    ensures |r| == size
  {
    seq(size, i requires 0 <= i < size => if i < |ctxs| then ctxs[i] else Ctx(i, NONE, EMPTY, EMPTY))
  }

  function Grown(t: Table, fd: nat): Table {
    if |t.ctxs| > fd then t else t.(ctxs := Resize(t.ctxs, fd * 3 / 2))
  }

  /** `addEvent` for a waiter `w` (the callback, or the calling fiber). */
  function AddEvent(t: Table, fd: nat, e: Event, w: Content, granted: bool): Result
    requires |t.ctxs| >= 32
  {
    var g := Grown(t, fd);
    var c := g.ctxs[fd];
    if Has(c.events, e) then Aborted
    else
      var k := Ctl(g.kernel, if c.events != NONE then MOD else ADD, fd, Edge(More(c.events, e)), granted);
      if !k.1 then Done(g, false, [], [])
      else if c.Get(e) != EMPTY then Aborted
      else Done(Table(g.ctxs[fd := Register(c, e, w)], g.pending + 1, k.0), true, [], [])
  }

  /** The kernel call shared by `delEvent`, `cancelEvent` and the dispatch loop. */
  function Shrink(kernel: map<nat, Mask>, fd: nat, left: Mask, granted: bool): (map<nat, Mask>, bool) {
    Ctl(kernel, if left != NONE then MOD else DEL, fd, Edge(left), granted)
  }

  /** `delEvent`. */
  function DelEvent(t: Table, fd: nat, e: Event, granted: bool): Result {
    if |t.ctxs| <= fd || !Has(t.ctxs[fd].events, e) then Done(t, false, [], [])
    else
      var c := t.ctxs[fd];
      var k := Shrink(t.kernel, fd, Less(c.events, e), granted);
      if !k.1 then Done(t, false, [], [])
      else Done(Table(t.ctxs[fd := Unregister(c, e)], t.pending - 1, k.0), true, [], Waiter(c.Get(e)))
  }

  /** `cancelEvent`. */
  function CancelEvent(t: Table, fd: nat, e: Event, granted: bool): Result {
    if |t.ctxs| <= fd || !Has(t.ctxs[fd].events, e) then Done(t, false, [], [])
    else
      var c := t.ctxs[fd];
      var k := Shrink(t.kernel, fd, Less(c.events, e), granted);
      if !k.1 then Done(t, false, [], [])
      else Done(Table(t.ctxs[fd := Trigger(c, e)], t.pending - 1, k.0), true, Waiter(c.Get(e)), [])
  }

  /** One conditional trigger of `cancelAll` or of the dispatch loop: the context, how many were
      triggered, and what was woken. */
  function TriggerIf(c: Ctx, e: Event, wanted: bool): (Ctx, int, seq<Content>) {
    if wanted then (Trigger(c, e), 1, Waiter(c.Get(e))) else (c, 0, [])
  }

  /** `cancelAll`. */
  function CancelAll(t: Table, fd: nat, granted: bool): Result {
    if |t.ctxs| <= fd || t.ctxs[fd].events == NONE then Done(t, false, [], [])
    else
      var k := Ctl(t.kernel, DEL, fd, NONE, granted);
      if !k.1 then Done(t, false, [], [])
      else
        var r := TriggerIf(t.ctxs[fd], READ, Has(t.ctxs[fd].events, READ));
        var w := TriggerIf(r.0, WRITE, Has(r.0.events, WRITE));
        if w.0.events != NONE then Aborted
        else Done(Table(t.ctxs[fd := w.0], t.pending - r.1 - w.1, k.0), true, r.2 + w.2, [])
  }

  /** The directions the dispatch loop reads out of a reported mask. */
  function RealEvents(reported: Mask): Mask {
    var ev := if reported & (EPOLLERR | EPOLLHUP) != NONE then reported | EPOLLIN | EPOLLOUT else reported;
    (if ev & EPOLLIN != NONE then Bit(READ) else NONE) | (if ev & EPOLLOUT != NONE then Bit(WRITE) else NONE)
  }

  /** The dispatch loop's turn for one reported descriptor. It triggers on what was reported, not on
      what was reported and registered. */
  function Dispatch(t: Table, fd: nat, reported: Mask, granted: bool): Result {
    if |t.ctxs| <= fd || !Overlaps(t.ctxs[fd].events, RealEvents(reported)) then Done(t, false, [], [])
    else
      var c := t.ctxs[fd];
      var hit := RealEvents(reported);
      var k := Shrink(t.kernel, fd, Minus(c.events, hit), granted);
      if !k.1 then Done(t, false, [], [])
      else if Has(hit, READ) && !Has(c.events, READ) then Aborted
      else
        var r := TriggerIf(c, READ, Has(hit, READ));
        if Has(hit, WRITE) && !Has(r.0.events, WRITE) then Aborted
        else
          var w := TriggerIf(r.0, WRITE, Has(hit, WRITE));
          Done(Table(t.ctxs[fd := w.0], t.pending - r.1 - w.1, k.0), true, r.2 + w.2, [])
  }

  // ---------------------------------------------------------------- the invariant

  /** A direction's bit is set exactly when its slot has a scheduler and exactly one of fiber and
      callback; otherwise the slot is empty. */
  predicate SlotOk(bit: bool, s: Slot) {
    if bit then s.scheduler && s.fiber.Some? != s.cb.Some? else s == EMPTY
  }

  predicate CtxOk(c: Ctx, i: nat) {
    && c.fd == i
    && (c.events == 0 || c.events == 1 || c.events == 4 || c.events == 5)
    && SlotOk(Has(c.events, READ), c.read)
    && SlotOk(Has(c.events, WRITE), c.write)
  }

  function BitsSet(m: Mask): int {
    (if Has(m, READ) then 1 else 0) + (if Has(m, WRITE) then 1 else 0)
  }

  function Bits(): Ctx -> int { (c: Ctx) => BitsSet(c.events) }

  ghost predicate KernelAgrees(ctxs: seq<Ctx>, kernel: map<nat, Mask>) {
    && (forall fd :: fd in kernel ==> fd < |ctxs| && ctxs[fd].events != NONE && kernel[fd] == Edge(ctxs[fd].events))
    && (forall fd :: 0 <= fd < |ctxs| && ctxs[fd].events != NONE ==> fd in kernel)
  }

  ghost predicate Inv(t: Table) {
    && |t.ctxs| >= 32
    && (forall i :: 0 <= i < |t.ctxs| ==> CtxOk(t.ctxs[i], i))
    && t.pending == Sum(t.ctxs, Bits())
    && KernelAgrees(t.ctxs, t.kernel)
  }

  /** How often a waiter with content `w` sits in a slot of the context. */
  function Holds(w: Content): Ctx -> int {
    (c: Ctx) => Occurs(Waiter(c.read), w) + Occurs(Waiter(c.write), w)
  }

  function Occurs(xs: seq<Content>, w: Content): int { Sum(xs, Same(w)) }

  function Same(w: Content): Content -> int { (x: Content) => if x == w then 1 else 0 }

  /** Waiters with content `w` that are registered somewhere in the table. */
  function Waiting(t: Table, w: Content): int { Sum(t.ctxs, Holds(w)) }

  // ---------------------------------------------------------------- lemmas on one context

  lemma OccursConcat(xs: seq<Content>, ys: seq<Content>, w: Content)
    ensures Occurs(xs + ys, w) == Occurs(xs, w) + Occurs(ys, w)
  {
    SumConcat(xs, ys, Same(w));
  }

  lemma TriggerCtx(c: Ctx, i: nat, e: Event)
    requires CtxOk(c, i) && Has(c.events, e)
    ensures CtxOk(Trigger(c, e), i)
    ensures Trigger(c, e).events == Less(c.events, e)
    ensures BitsSet(Trigger(c, e).events) == BitsSet(c.events) - 1
    ensures Trigger(c, e).Get(e) == EMPTY && |Waiter(c.Get(e))| == 1
    ensures forall w :: Holds(w)(Trigger(c, e)) == Holds(w)(c) - Occurs(Waiter(c.Get(e)), w)
    ensures Has(Trigger(c, e).events, READ) == (e != READ && Has(c.events, READ))
    ensures Has(Trigger(c, e).events, WRITE) == (e != WRITE && Has(c.events, WRITE))
  {}

  lemma UnregisterCtx(c: Ctx, i: nat, e: Event)
    requires CtxOk(c, i) && Has(c.events, e)
    ensures Unregister(c, e) == Trigger(c, e)
  {}

  lemma RegisterCtx(c: Ctx, i: nat, e: Event, w: Content)
    requires CtxOk(c, i) && !Has(c.events, e)
    ensures CtxOk(Register(c, e, w), i) && c.Get(e) == EMPTY
    ensures Edge(More(c.events, e)) == Edge(Register(c, e, w).events)
    ensures Register(c, e, w).events != NONE
    ensures BitsSet(Register(c, e, w).events) == BitsSet(c.events) + 1
    ensures Waiter(Register(c, e, w).Get(e)) == [w]
    ensures forall x :: Holds(x)(Register(c, e, w)) == Holds(x)(c) + Occurs([w], x)
  {
    assert Waiter(EMPTY) == [];
  }

  // ---------------------------------------------------------------- lemmas on the table

  /** Replacing one context together with its share of the counter and of the interest list. */
  lemma ReplaceCtx(t: Table, fd: nat, c: Ctx, t': Table)
    requires Inv(t) && fd < |t.ctxs| && CtxOk(c, fd)
    requires t'.ctxs == t.ctxs[fd := c]
    requires t'.pending == t.pending + BitsSet(c.events) - BitsSet(t.ctxs[fd].events)
    requires t'.kernel == if c.events == NONE then t.kernel - {fd} else t.kernel[fd := Edge(c.events)]
    ensures Inv(t')
    ensures forall w :: Waiting(t', w) == Waiting(t, w) - Holds(w)(t.ctxs[fd]) + Holds(w)(c)
  {
    hide Holds, SlotOk, BitsSet, Has, KernelAgrees;
    SumUpdate(t.ctxs, fd, c, Bits());
    KernelReplace(t.ctxs, t.kernel, fd, c, t'.kernel);
    forall w ensures Waiting(t', w) == Waiting(t, w) - Holds(w)(t.ctxs[fd]) + Holds(w)(c) {
      SumUpdate(t.ctxs, fd, c, Holds(w));
    }
  }

  lemma KernelReplace(ctxs: seq<Ctx>, kernel: map<nat, Mask>, fd: nat, c: Ctx, kernel': map<nat, Mask>)
    requires KernelAgrees(ctxs, kernel) && fd < |ctxs|
    requires kernel' == if c.events == NONE then kernel - {fd} else kernel[fd := Edge(c.events)]
    ensures KernelAgrees(ctxs[fd := c], kernel')
  {}

  lemma {:induction false} FreshTail(n: nat, size: nat, g: Ctx -> int)
    requires n <= size && forall i :: n <= i < size ==> g(Ctx(i, NONE, EMPTY, EMPTY)) == 0
    ensures Sum(seq(size - n, k requires 0 <= k < size - n => Ctx(n + k, NONE, EMPTY, EMPTY)), g) == 0
    decreases size - n
  {
    var s := seq(size - n, k requires 0 <= k < size - n => Ctx(n + k, NONE, EMPTY, EMPTY));
    if n < size {
      FreshTail(n + 1, size, g);
      assert s[1..] == seq(size - (n + 1), k requires 0 <= k < size - (n + 1) => Ctx(n + 1 + k, NONE, EMPTY, EMPTY));
    }
  }

  /** Growth keeps every entry in its place and adds idle ones; the requested descriptor is covered. */
  lemma GrowKeepsInv(t: Table, fd: nat)
    requires Inv(t)
    ensures Inv(Grown(t, fd)) && fd < |Grown(t, fd).ctxs|
    ensures t.ctxs <= Grown(t, fd).ctxs && Grown(t, fd).kernel == t.kernel && Grown(t, fd).pending == t.pending
    ensures |t.ctxs| <= fd ==> Grown(t, fd).ctxs[fd] == Ctx(fd, NONE, EMPTY, EMPTY)
    ensures forall w :: Waiting(Grown(t, fd), w) == Waiting(t, w)
  {
    if |t.ctxs| <= fd {
      var n, size := |t.ctxs|, fd * 3 / 2;
      var tail := seq(size - n, k requires 0 <= k < size - n => Ctx(n + k, NONE, EMPTY, EMPTY));
      assert Grown(t, fd).ctxs == t.ctxs + tail;
      SumConcat(t.ctxs, tail, Bits());
      FreshTail(n, size, Bits());
      forall w ensures Waiting(Grown(t, fd), w) == Waiting(t, w) {
        SumConcat(t.ctxs, tail, Holds(w));
        assert Waiter(EMPTY) == [];
        FreshTail(n, size, Holds(w));
      }
    }
  }

  /** What every operation that does not abort keeps: the invariant, the entries' places, and the
      waiters (what left the table was woken or dropped, what came in was accepted). */
  ghost predicate Kept(t: Table, r: Result, accepted: seq<Content>) {
    r.Done? ==>
      && Inv(r.table)
      && |t.ctxs| <= |r.table.ctxs|
      && (forall w :: Waiting(r.table, w) == Waiting(t, w) + Occurs(accepted, w) - Occurs(r.woken, w) - Occurs(r.dropped, w))
      && r.table.pending == t.pending + |accepted| - |r.woken| - |r.dropped|
  }

  /** `addEvent` aborts exactly on a direction that is already registered; it succeeds exactly when the
      kernel grants the call, and then the waiter is in the slot; a refused call changes nothing but
      the size of the table. */
  lemma AddEventKeeps(t: Table, fd: nat, e: Event, w: Content, granted: bool)
    requires Inv(t)
    ensures var r := AddEvent(t, fd, e, w, granted);
            && (r.Aborted? <==> fd < |t.ctxs| && Has(t.ctxs[fd].events, e))
            && (r.Done? ==> r.ok == granted && r.woken == [] && r.dropped == [])
            && (r.Done? && !r.ok ==> r.table == Grown(t, fd))
            && (r.Done? && r.ok ==> fd < |r.table.ctxs| && Has(r.table.ctxs[fd].events, e)
                                    && Waiter(r.table.ctxs[fd].Get(e)) == [w])
            && Kept(t, r, if r.Done? && r.ok then [w] else [])
  {
    hide AddEvent;
    hide Register;
    hide BitsSet;
    GrowKeepsInv(t, fd);
    AddEventUnfolds(t, fd, e, w, granted);
    var g := Grown(t, fd);
    var r := AddEvent(t, fd, e, w, granted);
    if !Has(g.ctxs[fd].events, e) && granted {
      RegisterCtx(g.ctxs[fd], fd, e, w);
      ReplaceCtx(g, fd, Register(g.ctxs[fd], e, w), r.table);
    }
  }

  /** With the invariant, the registering kernel call fails only when it is refused. */
  lemma GrowCtl(g: Table, fd: nat, mask: Mask, granted: bool)
    requires Inv(g) && fd < |g.ctxs|
    ensures Ctl(g.kernel, if g.ctxs[fd].events != NONE then MOD else ADD, fd, mask, granted)
            == (if granted then g.kernel[fd := mask] else g.kernel, granted)
  {
    assert fd in g.kernel <==> g.ctxs[fd].events != NONE;
  }

  lemma AddEventUnfolds(t: Table, fd: nat, e: Event, w: Content, granted: bool)
    requires Inv(t)
    ensures var g := Grown(t, fd);
            && fd < |g.ctxs|
            && AddEvent(t, fd, e, w, granted)
               == if Has(g.ctxs[fd].events, e) then Aborted
                  else if !granted then Done(g, false, [], [])
                  else
                    var c := Register(g.ctxs[fd], e, w);
                    Done(Table(g.ctxs[fd := c], g.pending + 1, g.kernel[fd := Edge(c.events)]), true, [], [])
  {
    hide Grown, Ctl, SlotOk, BitsSet, Has;
    GrowKeepsInv(t, fd);
    var c := Grown(t, fd).ctxs[fd];
    GrowCtl(Grown(t, fd), fd, Edge(More(c.events, e)), granted);
    if !Has(c.events, e) {
      RegisterCtx(c, fd, e, w);
    }
  }

  /** With the invariant, the shrinking kernel call fails only when it is refused. */
  lemma ShrinkOk(t: Table, fd: nat, left: Mask, granted: bool)
    requires Inv(t) && fd < |t.ctxs| && t.ctxs[fd].events != NONE
    ensures Shrink(t.kernel, fd, left, granted).1 == granted
    ensures granted ==> Shrink(t.kernel, fd, left, granted).0
                        == if left == NONE then t.kernel - {fd} else t.kernel[fd := Edge(left)]
  {}

  lemma HasImpliesSome(m: Mask, e: Event)
    ensures Has(m, e) ==> m != NONE
  {}

  /** `cancelEvent` succeeds exactly on a registered direction with a granted call, moves that one
      waiter to the queue and empties the slot; otherwise it changes nothing. */
  lemma CancelEventKeeps(t: Table, fd: nat, e: Event, granted: bool)
    requires Inv(t)
    ensures var r := CancelEvent(t, fd, e, granted);
            && r.Done? && r.dropped == []
            && (r.ok <==> fd < |t.ctxs| && Has(t.ctxs[fd].events, e) && granted)
            && (if r.ok then r.woken == Waiter(t.ctxs[fd].Get(e)) && |r.woken| == 1
                             && r.table.ctxs == t.ctxs[fd := t.ctxs[fd].(events := Less(t.ctxs[fd].events, e)).Set(e, EMPTY)]
                else r.table == t && r.woken == [])
            && Kept(t, r, [])
  {
    if fd < |t.ctxs| && Has(t.ctxs[fd].events, e) {
      var c := t.ctxs[fd];
      HasImpliesSome(c.events, e);
      ShrinkOk(t, fd, Less(c.events, e), granted);
      TriggerCtx(c, fd, e);
      UnregisterCtx(c, fd, e);
      if granted {
        ReplaceCtx(t, fd, Trigger(c, e), CancelEvent(t, fd, e, granted).table);
      }
    }
  }

  /** `delEvent` does to the table what `cancelEvent` does, and drops the waiter instead of waking it. */
  lemma DelEventIsSilentCancel(t: Table, fd: nat, e: Event, granted: bool)
    requires Inv(t)
    ensures var (d, c) := (DelEvent(t, fd, e, granted), CancelEvent(t, fd, e, granted));
            && d.Done? && c.Done? && d.table == c.table && d.ok == c.ok
            && d.dropped == c.woken && d.woken == []
            && Kept(t, d, [])
  {
    hide DelEvent, CancelEvent, Inv;
    CancelEventKeeps(t, fd, e, granted);
    DelEventUnfolds(t, fd, e, granted);
    assert Occurs([], FiberOf(0)) == 0;
  }

  lemma DelEventUnfolds(t: Table, fd: nat, e: Event, granted: bool)
    requires Inv(t)
    ensures CancelEvent(t, fd, e, granted).Done?
    ensures var c := CancelEvent(t, fd, e, granted);
            DelEvent(t, fd, e, granted) == Done(c.table, c.ok, [], c.woken)
  {
    hide SlotOk, BitsSet, Shrink, Trigger, Unregister, Has, Waiter, KernelAgrees, Bits;
    if fd < |t.ctxs| && Has(t.ctxs[fd].events, e) {
      UnregisterCtx(t.ctxs[fd], fd, e);
    }
  }

  /** Triggering the wanted directions of a context, when all of them are registered. */
  lemma TriggerBoth(c: Ctx, i: nat, hit: Mask)
    requires CtxOk(c, i)
    requires Has(hit, READ) ==> Has(c.events, READ)
    requires Has(hit, WRITE) ==> Has(c.events, WRITE)
    ensures var r := TriggerIf(c, READ, Has(hit, READ));
            var w := TriggerIf(r.0, WRITE, Has(hit, WRITE));
            && (Has(hit, WRITE) ==> Has(r.0.events, WRITE))
            && CtxOk(w.0, i)
            && BitsSet(w.0.events) == BitsSet(c.events) - r.1 - w.1
            && (forall x :: Holds(x)(w.0) == Holds(x)(c) - Occurs(r.2 + w.2, x))
            && |r.2 + w.2| == r.1 + w.1
            && r.2 + w.2 == (if Has(hit, READ) then Waiter(c.read) else []) + (if Has(hit, WRITE) then Waiter(c.write) else [])
            && Has(w.0.events, READ) == (Has(c.events, READ) && !Has(hit, READ))
            && Has(w.0.events, WRITE) == (Has(c.events, WRITE) && !Has(hit, WRITE))
  {
    var r := TriggerIf(c, READ, Has(hit, READ));
    var w := TriggerIf(r.0, WRITE, Has(hit, WRITE));
    if Has(hit, READ) { TriggerCtx(c, i, READ); }
    if Has(hit, WRITE) { TriggerCtx(r.0, i, WRITE); }
    forall x ensures Holds(x)(w.0) == Holds(x)(c) - Occurs(r.2 + w.2, x) {
      OccursConcat(r.2, w.2, x);
    }
  }

  /** Two registered masks with the same directions are the same mask. */
  lemma MaskByDirections(m: Mask, n: Mask)
    requires (m == 0 || m == 1 || m == 4 || m == 5) && (n == 0 || n == 1 || n == 4 || n == 5)
    requires Has(m, READ) == Has(n, READ) && Has(m, WRITE) == Has(n, WRITE)
    ensures m == n
  {}

  lemma MaskMinus(m: Mask, hit: Mask)
    requires m == 0 || m == 1 || m == 4 || m == 5
    requires hit == 0 || hit == 1 || hit == 4 || hit == 5
    ensures var l := Minus(m, hit);
            && (l == 0 || l == 1 || l == 4 || l == 5)
            && Has(l, READ) == (Has(m, READ) && !Has(hit, READ))
            && Has(l, WRITE) == (Has(m, WRITE) && !Has(hit, WRITE))
    ensures !Overlaps(m, hit) <==> !(Has(m, READ) && Has(hit, READ)) && !(Has(m, WRITE) && Has(hit, WRITE))
  {}

  /** A hang-up or an error counts as both directions. */
  lemma RealEventsAre(reported: Mask)
    ensures var hit := RealEvents(reported);
            var both := reported & (EPOLLERR | EPOLLHUP) != NONE;
            && (hit == 0 || hit == 1 || hit == 4 || hit == 5)
            && (Has(hit, READ) <==> both || reported & EPOLLIN != NONE)
            && (Has(hit, WRITE) <==> both || reported & EPOLLOUT != NONE)
  {}

  /** `cancelAll` never aborts; on a granted call it wakes every waiter of the descriptor, the reader
      first, and leaves the entry idle. */
  lemma CancelAllKeeps(t: Table, fd: nat, granted: bool)
    requires Inv(t)
    ensures var r := CancelAll(t, fd, granted);
            && r.Done? && r.dropped == []
            && (r.ok <==> fd < |t.ctxs| && t.ctxs[fd].events != NONE && granted)
            && (if r.ok then r.woken == Waiter(t.ctxs[fd].read) + Waiter(t.ctxs[fd].write)
                             && r.table.ctxs == t.ctxs[fd := Ctx(fd, NONE, EMPTY, EMPTY)]
                else r.table == t && r.woken == [])
            && Kept(t, r, [])
  {
    var r := CancelAll(t, fd, granted);
    if fd < |t.ctxs| && t.ctxs[fd].events != NONE && granted {
      var c := t.ctxs[fd];
      TriggerBoth(c, fd, c.events);
      var one := TriggerIf(c, READ, Has(c.events, READ));
      assert Has(one.0.events, WRITE) == Has(c.events, WRITE) by {
        if Has(c.events, READ) { TriggerCtx(c, fd, READ); }
      }
      var two := TriggerIf(one.0, WRITE, Has(one.0.events, WRITE));
      MaskByDirections(two.0.events, NONE);
      assert two.0 == Ctx(fd, NONE, EMPTY, EMPTY);
      ReplaceCtx(t, fd, two.0, r.table);
    }
  }

  /** The reported directions overlap the registered ones without being among them. */
  predicate Overreported(t: Table, fd: nat, reported: Mask) {
    && fd < |t.ctxs|
    && Overlaps(t.ctxs[fd].events, RealEvents(reported))
    && ((Has(RealEvents(reported), READ) && !Has(t.ctxs[fd].events, READ))
        || (Has(RealEvents(reported), WRITE) && !Has(t.ctxs[fd].events, WRITE)))
  }

  /** The dispatch loop fails its assertion exactly when the kernel grants the call and reports an
      unregistered direction together with a registered one. Otherwise, if it does anything, it wakes
      exactly the waiters of the reported directions, the reader first. */
  lemma DispatchKeeps(t: Table, fd: nat, reported: Mask, granted: bool)
    requires Inv(t)
    ensures var r := Dispatch(t, fd, reported, granted);
            var hit := RealEvents(reported);
            && (r.Aborted? <==> granted && Overreported(t, fd, reported))
            && (r.Done? ==> r.dropped == []
                            && (r.ok <==> fd < |t.ctxs| && Overlaps(t.ctxs[fd].events, hit) && granted))
            && (r.Done? && r.ok ==>
                  r.woken == (if Has(hit, READ) then Waiter(t.ctxs[fd].read) else [])
                             + (if Has(hit, WRITE) then Waiter(t.ctxs[fd].write) else []))
            && (r.Done? && !r.ok ==> r.table == t && r.woken == [])
            && Kept(t, r, [])
  {
    hide RealEvents;
    hide BitsSet;
    hide Turn;
    var r := Dispatch(t, fd, reported, granted);
    var hit := RealEvents(reported);
    RealEventsAre(reported);
    if fd < |t.ctxs| && Overlaps(t.ctxs[fd].events, hit) {
      var c := t.ctxs[fd];
      MaskMinus(c.events, hit);
      ShrinkOk(t, fd, Minus(c.events, hit), granted);
      DispatchUnfolds(t, fd, reported, granted);
      if granted {
        DispatchGranted(t, fd, hit, r);
      }
    }
  }

  /** What a granted dispatch turn computes. */
  function Turn(t: Table, fd: nat, hit: Mask): Result
    requires fd < |t.ctxs|
  {
    var c := t.ctxs[fd];
    if Has(hit, READ) && !Has(c.events, READ) then Aborted
    else
      var one := TriggerIf(c, READ, Has(hit, READ));
      if Has(hit, WRITE) && !Has(one.0.events, WRITE) then Aborted
      else
        var two := TriggerIf(one.0, WRITE, Has(hit, WRITE));
        var left := Minus(c.events, hit);
        Done(Table(t.ctxs[fd := two.0], t.pending - one.1 - two.1,
                   if left == NONE then t.kernel - {fd} else t.kernel[fd := Edge(left)]),
             true, one.2 + two.2, [])
  }

  lemma DispatchUnfolds(t: Table, fd: nat, reported: Mask, granted: bool)
    requires Inv(t) && fd < |t.ctxs| && Overlaps(t.ctxs[fd].events, RealEvents(reported))
    ensures Dispatch(t, fd, reported, granted)
            == if granted then Turn(t, fd, RealEvents(reported)) else Done(t, false, [], [])
  {
    hide RealEvents, TriggerIf, Has;
    var hit := RealEvents(reported);
    MaskMinusNonzero(t.ctxs[fd].events, hit);
    ShrinkOk(t, fd, Minus(t.ctxs[fd].events, hit), granted);
    hide Shrink;
  }

  lemma MaskMinusNonzero(m: Mask, hit: Mask)
    ensures Overlaps(m, hit) ==> m != NONE
  {}

  /** The granted part of a dispatch turn. */
  lemma DispatchGranted(t: Table, fd: nat, hit: Mask, r: Result)
    requires Inv(t) && fd < |t.ctxs| && (hit == 0 || hit == 1 || hit == 4 || hit == 5)
    requires Overlaps(t.ctxs[fd].events, hit) && r == Turn(t, fd, hit)
    ensures var c := t.ctxs[fd];
            && (r.Aborted? <==> (Has(hit, READ) && !Has(c.events, READ)) || (Has(hit, WRITE) && !Has(c.events, WRITE)))
            && (r.Done? ==> r.woken == (if Has(hit, READ) then Waiter(c.read) else []) + (if Has(hit, WRITE) then Waiter(c.write) else []))
            && Kept(t, r, [])
  {
    var c := t.ctxs[fd];
    if (Has(hit, READ) ==> Has(c.events, READ)) && (Has(hit, WRITE) ==> Has(c.events, WRITE)) {
      TriggerBoth(c, fd, hit);
      MaskMinus(c.events, hit);
      var one := TriggerIf(c, READ, Has(hit, READ));
      var two := TriggerIf(one.0, WRITE, Has(hit, WRITE));
      MaskByDirections(two.0.events, Minus(c.events, hit));
      ReplaceCtx(t, fd, two.0, r.table);
    } else if Has(hit, READ) && Has(c.events, READ) {
      TriggerCtx(c, fd, READ);
    }
  }
}
