/** The operations on the event table, unfolded under the invariant into what the code does step by
    step: which mask goes to the kernel, what becomes of the context, the counter and the queue. */
module EventSteps {
  import opened Common
  import opened EventSpec

  lemma EmptyTable()
    ensures Inv(Table(Resize([], 32), 0, map[]))
  {
    var ctxs := Resize([], 32);
    assert ctxs == seq(32 - 0, k requires 0 <= k < 32 - 0 => Ctx(0 + k, NONE, EMPTY, EMPTY));
    FreshTail(0, 32, Bits());
  }

  /** `addEvent` from `epoll_ctl` on: the new table and the return value. */
  function Enter(t: Table, fd: nat, e: Event, w: Content, granted: bool): (Table, int)
    requires fd < |t.ctxs|
  {
    var c := t.ctxs[fd];
    var k := Ctl(t.kernel, if c.events != NONE then MOD else ADD, fd, Edge(More(c.events, e)), granted);
    if k.1 then (Table(t.ctxs[fd := Register(c, e, w)], t.pending + 1, k.0), 0) else (t, -1)
  }

  /** `addEvent` on a free direction. */
  lemma AddEventIs(t: Table, fd: nat, e: Event, w: Content, granted: bool)
    requires Inv(t) && (fd < |t.ctxs| ==> !Has(t.ctxs[fd].events, e))
    ensures var g, r := Grown(t, fd), AddEvent(t, fd, e, w, granted);
            && fd < |g.ctxs| && !Has(g.ctxs[fd].events, e) && g.ctxs[fd].Get(e) == EMPTY
            && r.Done? && Inv(r.table)
            && Enter(g, fd, e, w, granted) == (r.table, if r.ok then 0 else -1)
  {
    AddEventKeeps(t, fd, e, w, granted);
    GrowKeepsInv(t, fd);
    var c := Grown(t, fd).ctxs[fd];
    assert CtxOk(c, fd) && (fd < |t.ctxs| ==> c == t.ctxs[fd]);
    NoBitNoSlot(c, fd, e);
    AddEventEnters(t, fd, e, w, granted);
    hide Enter, AddEvent, Kept, Resize, Has, CtxOk, Grown;
  }

  lemma NoBitNoSlot(c: Ctx, fd: nat, e: Event)
    requires CtxOk(c, fd)
    ensures !Has(c.events, e) ==> c.Get(e) == EMPTY
    ensures c.events == NONE ==> !Has(c.events, e)
  {}

  lemma AddEventEnters(t: Table, fd: nat, e: Event, w: Content, granted: bool)
    requires |t.ctxs| >= 32 && fd < |Grown(t, fd).ctxs|
    requires !Has(Grown(t, fd).ctxs[fd].events, e) && Grown(t, fd).ctxs[fd].Get(e) == EMPTY
    ensures var r := AddEvent(t, fd, e, w, granted);
            r.Done? && Enter(Grown(t, fd), fd, e, w, granted) == (r.table, if r.ok then 0 else -1)
  {
    hide Grown, Register, Ctl, More, Edge, Has;
  }

  /** `cancelEvent`, in the terms of the code. */
  lemma CancelEventIs(t: Table, fd: nat, e: Event, granted: bool)
    requires Inv(t)
    ensures var r := CancelEvent(t, fd, e, granted);
            && r.Done? && Inv(r.table)
            && (if fd < |t.ctxs| && Has(t.ctxs[fd].events, e) then
                  var c := t.ctxs[fd];
                  var left := Less(c.events, e);
                  var k := Ctl(t.kernel, if left != NONE then MOD else DEL, fd, Edge(left), granted);
                  && SlotOk(true, c.Get(e))
                  && r == (if !k.1 then Done(t, false, [], [])
                           else Done(Table(t.ctxs[fd := Trigger(c, e)], t.pending - 1, k.0), true, Waiter(c.Get(e)), []))
                else r == Done(t, false, [], []))
  {
    CancelEventKeeps(t, fd, e, granted);
    if fd < |t.ctxs| && Has(t.ctxs[fd].events, e) {
      assert CtxOk(t.ctxs[fd], fd);
    }
    hide Trigger, Ctl, Less, Edge, Waiter;
  }

  /** `delEvent`, in the terms of the code. */
  lemma DelEventIs(t: Table, fd: nat, e: Event, granted: bool)
    requires Inv(t)
    ensures var r := DelEvent(t, fd, e, granted);
            && r.Done? && Inv(r.table)
            && (if fd < |t.ctxs| && Has(t.ctxs[fd].events, e) then
                  var c := t.ctxs[fd];
                  var left := Less(c.events, e);
                  var k := Ctl(t.kernel, if left != NONE then MOD else DEL, fd, Edge(left), granted);
                  r == (if !k.1 then Done(t, false, [], [])
                        else Done(Table(t.ctxs[fd := Unregister(c, e)], t.pending - 1, k.0), true, [], Waiter(c.Get(e))))
                else r == Done(t, false, [], []))
  {
    DelEventIsSilentCancel(t, fd, e, granted);
    hide Unregister, Ctl, Less, Edge, Waiter;
  }

  /** The two conditional triggers of `cancelAll` and of the dispatch loop. */
  function Both(c: Ctx, read: bool, write: bool): (Ctx, int, seq<Content>) {
    var one := TriggerIf(c, READ, read);
    var two := TriggerIf(one.0, WRITE, write);
    (two.0, one.1 + two.1, one.2 + two.2)
  }

  /** A trigger leaves the other direction alone. */
  lemma OtherDirection(c: Ctx, i: nat, read: bool)
    requires CtxOk(c, i) && (read ==> Has(c.events, READ))
    ensures var one := TriggerIf(c, READ, read);
            Has(one.0.events, WRITE) == Has(c.events, WRITE) && one.0.write == c.write && one.0.fd == i
    ensures read ==> SlotOk(true, c.read)
    ensures Has(c.events, WRITE) ==> SlotOk(true, c.write)
  {
    if read { TriggerCtx(c, i, READ); }
  }

  /** `cancelAll`, in the terms of the code. */
  lemma CancelAllIs(t: Table, fd: nat, granted: bool)
    requires Inv(t)
    ensures var r := CancelAll(t, fd, granted);
            && r.Done? && Inv(r.table)
            && (if fd < |t.ctxs| && t.ctxs[fd].events != NONE then
                  var c := t.ctxs[fd];
                  var k := Ctl(t.kernel, DEL, fd, NONE, granted);
                  var both := Both(c, Has(c.events, READ), Has(c.events, WRITE));
                  && CtxOk(c, fd)
                  && (k.1 ==> both.0.events == NONE)
                  && r == (if !k.1 then Done(t, false, [], [])
                           else Done(Table(t.ctxs[fd := both.0], t.pending - both.1, k.0), true, both.2, []))
                else r == Done(t, false, [], []))
  {
    CancelAllKeeps(t, fd, granted);
    if fd < |t.ctxs| && t.ctxs[fd].events != NONE {
      assert CtxOk(t.ctxs[fd], fd);
      OtherDirection(t.ctxs[fd], fd, Has(t.ctxs[fd].events, READ));
    }
    hide Inv, Ctl, Less, Edge, Waiter, TriggerIf, CtxOk, Has;
  }

  /** A turn of the dispatch loop that does not fail its assertions, in the terms of the code. */
  lemma DispatchIs(t: Table, fd: nat, reported: Mask, granted: bool)
    requires Inv(t) && fd < |t.ctxs| && Dispatch(t, fd, reported, granted).Done?
    ensures var r := Dispatch(t, fd, reported, granted);
            var c, hit := t.ctxs[fd], RealEvents(reported);
            && Inv(r.table)
            && (if Overlaps(c.events, hit) then
                  var left := Minus(c.events, hit);
                  var k := Ctl(t.kernel, if left != NONE then MOD else DEL, fd, Edge(left), granted);
                  var both := Both(c, Has(hit, READ), Has(hit, WRITE));
                  && CtxOk(c, fd)
                  && (k.1 ==> (Has(hit, READ) ==> Has(c.events, READ)) && (Has(hit, WRITE) ==> Has(c.events, WRITE)))
                  && r == (if !k.1 then Done(t, false, [], [])
                           else Done(Table(t.ctxs[fd := both.0], t.pending - both.1, k.0), true, both.2, []))
                else r == Done(t, false, [], []))
  {
    DispatchKeeps(t, fd, reported, granted);
    assert CtxOk(t.ctxs[fd], fd);
    hide Inv, Ctl, Edge, Waiter, TriggerIf, CtxOk, Has, RealEvents, Kept;
  }

  // ---------------------------------------------------------------- the whole dispatch loop

  /** One turn: the wake-up pipe is drained, or a descriptor's report is handled. */
  datatype Turn = Drain | Handle(fd: nat, reported: Mask, granted: bool)

  function DispatchAll(t: Table, turns: seq<Turn>): Result
    decreases |turns|
  {
    if turns == [] then Done(t, true, [], [])
    else if turns[0].Drain? then DispatchAll(t, turns[1..])
    else
      var r := Dispatch(t, turns[0].fd, turns[0].reported, turns[0].granted);
      if r.Aborted? then Aborted
      else
        var rest := DispatchAll(r.table, turns[1..]);
        if rest.Aborted? then Aborted else Done(rest.table, true, r.woken + rest.woken, [])
  }

  /** From turn `i` on, one turn more. */
  lemma TurnAt(t: Table, turns: seq<Turn>, i: nat)
    requires i < |turns| && DispatchAll(t, turns[i..]).Done?
    ensures var now := DispatchAll(t, turns[i..]);
            if turns[i].Drain? then now == DispatchAll(t, turns[i + 1..])
            else
              var r := Dispatch(t, turns[i].fd, turns[i].reported, turns[i].granted);
              && r.Done?
              && var rest := DispatchAll(r.table, turns[i + 1..]);
                 rest.Done? && now.table == rest.table && now.woken == r.woken + rest.woken
  {
    hide Dispatch;
    assert turns[i..][0] == turns[i] && turns[i..][1..] == turns[i + 1..];
  }

  lemma NoTurnLeft(t: Table, turns: seq<Turn>)
    ensures DispatchAll(t, turns[|turns|..]) == Done(t, true, [], [])
  {}

  /** The loop as a whole keeps the invariant and the waiters. */
  lemma {:induction false} DispatchAllKeeps(t: Table, turns: seq<Turn>)
    requires Inv(t)
    ensures Kept(t, DispatchAll(t, turns), [])
    ensures DispatchAll(t, turns).Done? ==> DispatchAll(t, turns).dropped == []
    decreases |turns|
  {
    hide Inv, Dispatch, Waiting;
    if turns != [] {
      if turns[0].Drain? {
        DispatchAllKeeps(t, turns[1..]);
      } else {
        var r := Dispatch(t, turns[0].fd, turns[0].reported, turns[0].granted);
        DispatchKeeps(t, turns[0].fd, turns[0].reported, turns[0].granted);
        if r.Done? {
          DispatchAllKeeps(r.table, turns[1..]);
          var rest := DispatchAll(r.table, turns[1..]);
          if rest.Done? {
            forall w ensures Occurs(r.woken + rest.woken, w) == Occurs(r.woken, w) + Occurs(rest.woken, w) {
              OccursConcat(r.woken, rest.woken, w);
            }
          }
        }
      }
    }
  }

  /** When the kernel reports only registered directions of each descriptor, once, no turn fails. */
  ghost predicate WellReported(t: Table, turns: seq<Turn>) {
    && (forall k :: 0 <= k < |turns| && turns[k].Handle? ==> !Overreported(t, turns[k].fd, turns[k].reported))
    && (forall j, k :: 0 <= j < k < |turns| && turns[j].Handle? && turns[k].Handle? ==> turns[j].fd != turns[k].fd)
  }

  lemma {:induction false} WellReportedNeverAborts(t: Table, turns: seq<Turn>)
    requires Inv(t) && WellReported(t, turns)
    ensures DispatchAll(t, turns).Done?
    decreases |turns|
  {
    hide Inv, Dispatch, RealEvents, Has, Overlaps;
    if turns != [] {
      if turns[0].Drain? {
        WellReportedNeverAborts(t, turns[1..]);
      } else {
        var r := Dispatch(t, turns[0].fd, turns[0].reported, turns[0].granted);
        DispatchKeeps(t, turns[0].fd, turns[0].reported, turns[0].granted);
        OthersUntouched(t, turns[0].fd, turns[0].reported, turns[0].granted);
            WellReportedNeverAborts(r.table, turns[1..]);
      }
    }
  }

  lemma OthersUntouched(t: Table, fd: nat, reported: Mask, granted: bool)
    requires Dispatch(t, fd, reported, granted).Done?
    ensures var r := Dispatch(t, fd, reported, granted);
            |r.table.ctxs| == |t.ctxs| && forall i :: 0 <= i < |t.ctxs| && i != fd ==> r.table.ctxs[i] == t.ctxs[i]
  {
    hide TriggerIf, Shrink, RealEvents, Overlaps, Has, Minus;
  }
}
