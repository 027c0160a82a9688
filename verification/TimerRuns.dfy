/** Whole runs of the timer queue: every interleaving of clock changes, additions, cancels, refreshes,
    resets, `getNextTimer` and `listExpiredCb`, with the history needed to say what a run may do.

    Each locked region is one step. A clock reading taken before the lock (the `Timer` constructor,
    `listExpiredCb`) is any value not above the clock at the moment of the step; a reading taken under
    the lock is the clock itself. */
module TimerRuns {
  import opened Common
  import opened Sums
  import opened TimerSpec

  /** One callback given out by `listExpiredCb`, with the arming time and period in force then. */
  datatype HandOut = HandOut(a: nat, now: u64, armedAt: u64, ms: u64)

  /** `seen`: the front deadline at the last `getNextTimer`, `None` when the set was empty.
      `notified`: calls of `onTimerInsertedAtFront` since then.
      `armedAt`: the clock reading each timer's deadline is counted from.
      `back`, `rolled`, `wrapped`: whether the clock ever went back, a rollover was ever detected, a
      deadline ever exceeded 64 bits. */
  datatype World = World(
    q: Queue, clock: u64, seen: Option<u64>, notified: nat, armedAt: map<nat, u64>,
    handed: seq<HandOut>, cancelled: seq<nat>, back: bool, rolled: bool, wrapped: bool)
  {
    predicate Clean() { !back && !rolled && !wrapped }
  }

  datatype Op =
    | SetClock(t: u64)
    | DoAdd(a: nat, born: u64, ms: u64, cb: Callback, recurring: bool)
    | DoCancel(a: nat)
    | DoRefresh(a: nat)
    | DoReset(a: nat, ms: u64, fromNow: bool)
    | DoGetNext
    | DoExpire(now: u64, probe: nat)

  function Start(clock: u64): World {
    World(Queue(map[], [], false, clock), clock, None, 0, map[], [], [], false, false, false)
  }

  /** Handles refer to existing timers, new addresses are new, and no
      reading is ahead of the clock. */
  predicate Enabled(w: World, op: Op) {
    match op
    case SetClock(t) => true
    case DoAdd(a, born, ms, _, _) => a !in w.q.recs && born <= w.clock
    case DoCancel(a) => a in w.q.recs
    case DoRefresh(a) => a in w.q.recs
    case DoReset(a, ms, _) => a in w.q.recs
    case DoGetNext => true
    case DoExpire(now, _) => now <= w.clock
  }

  ghost predicate Rearmed(q: Queue, now: u64, a: nat) {
    Due(q, now, a) && q.recs[a].recurring
  }

  ghost function ApplyAdd(w: World, a: nat, born: u64, ms: u64, cb: Callback, recurring: bool): World
    requires Inv(w.q) && a !in w.q.recs
  {
    var r := Add(w.q, a, born, ms, cb, recurring);
    w.(q := r.0, notified := w.notified + (if r.1 then 1 else 0), armedAt := w.armedAt[a := born],
       wrapped := w.wrapped || born + ms >= U64)
  }

  ghost function ApplyCancel(w: World, a: nat): World
    requires Inv(w.q) && a in w.q.recs
  {
    var r := Cancel(w.q, a);
    w.(q := r.0, cancelled := if r.1 then w.cancelled + [a] else w.cancelled)
  }

  ghost function ApplyRefresh(w: World, a: nat): World
    requires Inv(w.q) && a in w.q.recs
  {
    var r := Refresh(w.q, a, w.clock);
    if !r.1 then w
    else w.(q := r.0, armedAt := w.armedAt[a := w.clock],
            wrapped := w.wrapped || w.clock + w.q.recs[a].ms >= U64)
  }

  ghost function ApplyReset(w: World, a: nat, ms: u64, fromNow: bool): World
    requires Inv(w.q) && a in w.q.recs
  {
    var r := Reset(w.q, a, ms, fromNow, w.clock);
    var start := if fromNow then w.clock else Sub64(w.q.recs[a].next, w.q.recs[a].ms);
    w.(q := r.0, notified := w.notified + (if r.2 then 1 else 0),
       armedAt := if fromNow then w.armedAt[a := w.clock] else w.armedAt,
       wrapped := w.wrapped || start + ms >= U64)
  }

  ghost function ApplyGetNext(w: World): World
    requires Inv(w.q)
  {
    w.(q := GetNext(w.q, w.clock).0, notified := 0,
       seen := if w.q.armed == [] then None else Some(w.q.recs[w.q.armed[0]].next))
  }

  ghost function ApplyExpire(w: World, now: u64, probe: nat): World
    requires Inv(w.q) && w.armedAt.Keys == w.q.recs.Keys
  {
    var r := Expire(w.q, now, probe);
    w.(q := r.0,
       handed := w.handed + Handed(w, now, |r.1|),
       armedAt := map a | a in w.armedAt :: if Rearmed(w.q, now, a) then now else w.armedAt[a],
       rolled := w.rolled || (w.q.armed != [] && Rollover(w.q.prev, now)),
       wrapped := w.wrapped || exists a :: Rearmed(w.q, now, a) && now + w.q.recs[a].ms >= U64)
  }

  ghost function Apply(w: World, op: Op): World
    requires Inv(w.q) && Enabled(w, op) && w.armedAt.Keys == w.q.recs.Keys
  {
    match op
    case SetClock(t) => w.(clock := t, back := w.back || t < w.clock)
    case DoAdd(a, born, ms, cb, recurring) => ApplyAdd(w, a, born, ms, cb, recurring)
    case DoCancel(a) => ApplyCancel(w, a)
    case DoRefresh(a) => ApplyRefresh(w, a)
    case DoReset(a, ms, fromNow) => ApplyReset(w, a, ms, fromNow)
    case DoGetNext => ApplyGetNext(w)
    case DoExpire(now, probe) => ApplyExpire(w, now, probe)
  }

  /** The log entries of the first `n` elements of the set. */
  ghost function Handed(w: World, now: u64, n: nat): (r: seq<HandOut>)
    requires Inv(w.q) && w.armedAt.Keys == w.q.recs.Keys
    ensures |r| == if n <= |w.q.armed| then n else 0
  {
    if n <= |w.q.armed| then
      seq(n, i requires 0 <= i < n =>
            assert w.q.armed[i] in w.q.recs.Keys;
            HandOut(w.q.armed[i], now, w.armedAt[w.q.armed[i]], w.q.recs[w.q.armed[i]].ms))
    else []
  }

  /** A run: operations that are not enabled do nothing. */
  ghost function Run(w: World, ops: seq<Op>): (w': World)
    requires RunInv(w)
    ensures RunInv(w')
    decreases |ops|
  {
    if ops == [] then w
    else if Enabled(w, ops[0]) then
      StepKeepsInv(w, ops[0]);
      Run(Apply(w, ops[0]), ops[1..])
    else Run(w, ops[1..])
  }

  // ---------------------------------------------------------------- the invariant of every run

  function IsHandOutOf(a: nat): HandOut -> int { (h: HandOut) => if h.a == a then 1 else 0 }
  function Is(a: nat): nat -> int { (b: nat) => if a == b then 1 else 0 }

  function HandOuts(w: World, a: nat): int { Sum(w.handed, IsHandOutOf(a)) }
  function Cancels(w: World, a: nat): int { Sum(w.cancelled, Is(a)) }

  /** How a timer's life has gone: a one-shot timer is over by exactly one hand-out or exactly one
      successful cancel; a recurring one is over by exactly one successful cancel only. */
  ghost predicate LifeOf(w: World, a: nat) {
    if a !in w.q.recs then HandOuts(w, a) == 0 && Cancels(w, a) == 0
    else
      && HandOuts(w, a) >= 0 && Cancels(w, a) >= 0
      && (if w.q.recs[a].recurring then 0 else HandOuts(w, a)) + Cancels(w, a)
         == (if w.q.recs[a].cb.None? then 1 else 0)
  }

  /** Deadlines are counted from an arming time that is not in the future. */
  ghost predicate ArmingTimes(w: World) {
    forall a :: a in w.q.armed && a in w.q.recs && a in w.armedAt ==>
                  w.q.recs[a].next == w.armedAt[a] + w.q.recs[a].ms && w.armedAt[a] <= w.clock
  }

  /** No missing wake-up: while no wake-up is pending, the deadline last seen is at or before every
      armed deadline. */
  ghost predicate NothingMissed(w: World) {
    !w.q.tickled ==>
      forall a :: a in w.q.armed && a in w.q.recs ==> w.seen.Some? && w.seen.value <= w.q.recs[a].next
  }

  ghost predicate NeverEarly(w: World) {
    forall i :: 0 <= i < |w.handed| ==> w.handed[i].now >= w.handed[i].armedAt + w.handed[i].ms
  }

  ghost predicate RunInv(w: World) {
    && Inv(w.q)
    && w.armedAt.Keys == w.q.recs.Keys
    && w.notified == (if w.q.tickled then 1 else 0)
    && (forall a :: LifeOf(w, a))
    && (w.Clean() ==> ArmingTimes(w) && NothingMissed(w) && NeverEarly(w))
  }

  /** Steps that hand nothing out and cancel nothing keep every life story. */
  lemma LivesGoOn(w: World, w': World)
    requires forall a :: LifeOf(w, a)
    requires w'.handed == w.handed && w'.cancelled == w.cancelled
    requires forall a :: a in w.q.recs ==>
               a in w'.q.recs && w'.q.recs[a].recurring == w.q.recs[a].recurring
               && (w'.q.recs[a].cb.None? <==> w.q.recs[a].cb.None?)
    requires forall a :: a in w'.q.recs && a !in w.q.recs ==> w'.q.recs[a].cb.Some?
    ensures forall a :: LifeOf(w', a)
  {
    forall a ensures LifeOf(w', a) {
      assert LifeOf(w, a);
    }
  }

  /** Arming `a` misses nothing: either it notifies, or another timer's deadline is no later. */
  lemma ArmMissesNothing(w: World, w': World, q: Queue, a: nat)
    requires NothingMissed(w) && w'.seen == w.seen
    requires Sorted(q.recs, q.armed) && a in q.recs && a !in q.armed && q.tickled == w.q.tickled
    requires w'.q == Arm(q, a).0
    requires forall b :: b in q.armed ==> b in w.q.armed && b in w.q.recs && q.recs[b] == w.q.recs[b]
    ensures NothingMissed(w')
  {
    ArmIntegrity(q, a);
    if !w'.q.tickled {
      var c :| c in q.armed && !Less(KeyOf(q.recs, a), KeyOf(q.recs, c));
      assert q.recs[c].next <= q.recs[a].next;
    }
  }

  lemma AddKeepsInv(w: World, a: nat, born: u64, ms: u64, cb: Callback, recurring: bool)
    requires RunInv(w) && a !in w.q.recs && born <= w.clock
    ensures RunInv(ApplyAdd(w, a, born, ms, cb, recurring))
  {
    AddIntegrity(w.q, a, born, ms, cb, recurring);
    var w' := ApplyAdd(w, a, born, ms, cb, recurring);
    var r := TimerRec(Add64(born, ms), ms, recurring, Some(cb));
    OutsideRewrite(w.q.recs, w.q.armed, a, r);
    LivesGoOn(w, w');
    if w'.Clean() {
      ArmMissesNothing(w, w', w.q.(recs := w.q.recs[a := r]), a);
    }
  }

  lemma CancelKeepsInv(w: World, a: nat)
    requires RunInv(w) && a in w.q.recs
    ensures RunInv(ApplyCancel(w, a))
  {
    CancelIntegrity(w.q, a);
    var w' := ApplyCancel(w, a);
    assert w'.q.recs.Keys == w.q.recs.Keys;
    forall b ensures LifeOf(w', b) {
      assert LifeOf(w, b);
      SumAppend(w.cancelled, a, Is(b));
    }
  }

  /** Rewriting the record of `a` keeps the arming times of the others. */
  lemma RewriteKeepsArming(w: World, w': World, a: nat)
    requires ArmingTimes(w) && w'.clock == w.clock
    requires forall b :: b in w'.q.armed ==> b == a || b in w.q.armed
    requires forall b :: b != a && b in w.q.armed ==>
               && (b in w'.q.recs ==> b in w.q.recs && w'.q.recs[b] == w.q.recs[b])
               && (b in w'.armedAt ==> b in w.armedAt && w'.armedAt[b] == w.armedAt[b])
    requires a in w'.q.armed && a in w'.q.recs && a in w'.armedAt ==>
               w'.q.recs[a].next == w'.armedAt[a] + w'.q.recs[a].ms && w'.armedAt[a] <= w'.clock
    ensures ArmingTimes(w')
  {}

  lemma RefreshKeepsInv(w: World, a: nat)
    requires RunInv(w) && a in w.q.recs
    ensures RunInv(ApplyRefresh(w, a))
  {
    hide Refresh;
    RefreshIntegrity(w.q, a, w.clock);
    var w' := ApplyRefresh(w, a);
    LivesGoOn(w, w');
    if w'.Clean() {
      RewriteKeepsArming(w, w', a);
    }
  }

  lemma ResetTiming(w: World, a: nat, ms: u64, fromNow: bool)
    requires RunInv(w) && a in w.q.recs && a in w.q.armed && (ms != w.q.recs[a].ms || fromNow)
    requires ApplyReset(w, a, ms, fromNow).Clean()
    ensures ArmingTimes(ApplyReset(w, a, ms, fromNow)) && NothingMissed(ApplyReset(w, a, ms, fromNow))
  {
    var w' := ApplyReset(w, a, ms, fromNow);
    var q := Rekeyed(w.q, a, ms, fromNow, w.clock);
    ResetIsArm(w.q, a, ms, fromNow, w.clock);
    ArmMissesNothing(w, w', q, a);
    assert ArmingTimes(w') by {
      ResetIntegrity(w.q, a, ms, fromNow, w.clock);
      RewriteKeepsArming(w, w', a);
    }
  }

  lemma ResetKeepsInv(w: World, a: nat, ms: u64, fromNow: bool)
    requires RunInv(w) && a in w.q.recs
    ensures RunInv(ApplyReset(w, a, ms, fromNow))
  {
    hide Reset;
    var w' := ApplyReset(w, a, ms, fromNow);
    ResetIntegrity(w.q, a, ms, fromNow, w.clock);
    LivesGoOn(w, w');
    if a in w.q.armed && (ms != w.q.recs[a].ms || fromNow) {
      if w'.Clean() {
        ResetTiming(w, a, ms, fromNow);
      }
    }
  }

  lemma GetNextKeepsInv(w: World)
    requires RunInv(w)
    ensures RunInv(ApplyGetNext(w))
  {
    var w' := ApplyGetNext(w);
    LivesGoOn(w, w');
    forall b | b in w.q.armed ensures w'.seen.Some? && w'.seen.value <= w.q.recs[b].next {
      var i :| 0 <= i < |w.q.armed| && w.q.armed[i] == b;
      assert i > 0 ==> Less(KeyOf(w.q.recs, w.q.armed[0]), KeyOf(w.q.recs, w.q.armed[i]));
    }
  }

  /** A distinct prefix contains each element once. */
  lemma {:induction false} HandedOnce(w: World, now: u64, n: nat, a: nat)
    requires RunInv(w) && n <= |w.q.armed|
    ensures Sum(Handed(w, now, n), IsHandOutOf(a)) == if a in w.q.armed[..n] then 1 else 0
  {
    if n > 0 {
      HandedOnce(w, now, n - 1, a);
      assert Handed(w, now, n) == Handed(w, now, n - 1) + [Handed(w, now, n)[n - 1]];
      SumAppend(Handed(w, now, n - 1), Handed(w, now, n)[n - 1], IsHandOutOf(a));
      assert w.q.armed[..n] == w.q.armed[..n - 1] + [w.q.armed[n - 1]];
      assert w.q.armed[n - 1] !in w.q.armed[..n - 1];
    }
  }

  lemma ExpireKeepsInv(w: World, now: u64, probe: nat)
    requires RunInv(w) && now <= w.clock
    ensures RunInv(ApplyExpire(w, now, probe))
  {
    ExpireExact(w.q, now, probe);
    var w' := ApplyExpire(w, now, probe);
    var cbs := Expire(w.q, now, probe).1;
    forall a ensures LifeOf(w', a) {
      assert LifeOf(w, a);
      HandedOnce(w, now, |cbs|, a);
      SumConcat(w.handed, Handed(w, now, |cbs|), IsHandOutOf(a));
      assert a in w.q.armed[..|cbs|] <==> Due(w.q, now, a);
    }
    if w'.Clean() {
      forall i | 0 <= i < |w'.handed|
        ensures w'.handed[i].now >= w'.handed[i].armedAt + w'.handed[i].ms
      {
        if i >= |w.handed| {
          var a := w.q.armed[i - |w.handed|];
          assert a in w.q.armed && Due(w.q, now, a);
        }
      }
      forall a | a in w'.q.armed && Due(w.q, now, a) ensures w'.q.recs[a].next == now + w.q.recs[a].ms {
        assert Rearmed(w.q, now, a);
      }
    }
  }

  lemma StepKeepsInv(w: World, op: Op)
    requires RunInv(w) && Enabled(w, op)
    ensures RunInv(Apply(w, op))
  {
    match op
    case SetClock(t) => LivesGoOn(w, Apply(w, op));
    case DoAdd(a, born, ms, cb, recurring) => AddKeepsInv(w, a, born, ms, cb, recurring);
    case DoCancel(a) => CancelKeepsInv(w, a);
    case DoRefresh(a) => RefreshKeepsInv(w, a);
    case DoReset(a, ms, fromNow) => ResetKeepsInv(w, a, ms, fromNow);
    case DoGetNext => GetNextKeepsInv(w);
    case DoExpire(now, probe) => ExpireKeepsInv(w, now, probe);
  }

  // ---------------------------------------------------------------- the theorems

  lemma StartInv(clock: u64)
    ensures RunInv(Start(clock))
  {}

  /** The state after `ops`, from an empty queue. */
  ghost function After(clock: u64, ops: seq<Op>): (w: World)
    ensures RunInv(w)
  {
    StartInv(clock);
    Run(Start(clock), ops)
  }

  /** Integrity of the ordered set in every reachable state: sorted by (deadline, address), holding
      exactly the timers with a callback, and `find` locates each of them. */
  lemma SetIntegrity(clock: u64, ops: seq<Op>, a: nat)
    ensures var q := After(clock, ops).q;
            && Sorted(q.recs, q.armed)
            && (a in q.recs ==> (q.recs[a].cb.Some? <==> a in q.armed))
            && (a in q.armed ==> Find(q.recs, q.armed, a) < |q.armed|
                                 && q.armed[Find(q.recs, q.armed, a)] == a)
  {
    var q := After(clock, ops).q;
    if a in q.armed {
      FindLocates(q.recs, q.armed, a);
    }
  }

  /** No redundant and no missing wake-up. At most one notification falls between two `getNextTimer`
      calls in any run; and in a run whose clock never goes back and never wraps, as long as none is
      pending, the sleeper's deadline is at or before every armed one. */
  lemma WakeUps(clock: u64, ops: seq<Op>)
    ensures var w := After(clock, ops);
            && w.notified <= 1
            && (w.notified == 1 <==> w.q.tickled)
            && (w.Clean() && !w.q.tickled ==>
                  forall a :: a in w.q.armed && a in w.q.recs ==> w.seen.Some? && w.seen.value <= w.q.recs[a].next)
  {}

  /** The life story of a timer over any run. */
  lemma LifeStory(clock: u64, ops: seq<Op>, a: nat)
    ensures var w := After(clock, ops);
            && (a in w.q.recs && !w.q.recs[a].recurring ==>
                  && HandOuts(w, a) + Cancels(w, a) <= 1
                  && (HandOuts(w, a) + Cancels(w, a) == 1 <==> w.q.recs[a].cb.None?))
            && (a in w.q.recs && w.q.recs[a].recurring ==>
                  Cancels(w, a) <= 1 && (Cancels(w, a) == 1 <==> w.q.recs[a].cb.None?))
            && (w.Clean() ==> forall i :: 0 <= i < |w.handed| ==>
                                w.handed[i].now >= w.handed[i].armedAt + w.handed[i].ms)
  {
    assert LifeOf(After(clock, ops), a);
  }

  /** A timer whose callback is gone (handed out once, or cancelled) is never handed out again and
      never successfully cancelled again, whatever follows. */
  lemma {:induction false} OverIsOver(w: World, ops: seq<Op>, a: nat)
    requires RunInv(w) && a in w.q.recs && w.q.recs[a].cb.None?
    ensures var w' := Run(w, ops);
            && a in w'.q.recs && w'.q.recs[a].cb.None?
            && HandOuts(w', a) == HandOuts(w, a) && Cancels(w', a) == Cancels(w, a)
    decreases |ops|
  {
    if ops != [] {
      if Enabled(w, ops[0]) {
        StepKeepsInv(w, ops[0]);
        OverStep(w, ops[0], a);
        OverIsOver(Apply(w, ops[0]), ops[1..], a);
      } else {
        OverIsOver(w, ops[1..], a);
      }
    }
  }

  lemma OverStep(w: World, op: Op, a: nat)
    requires RunInv(w) && a in w.q.recs && w.q.recs[a].cb.None? && Enabled(w, op)
    ensures var w' := Apply(w, op);
            && a in w'.q.recs && w'.q.recs[a].cb.None?
            && HandOuts(w', a) == HandOuts(w, a) && Cancels(w', a) == Cancels(w, a)
  {
    match op
    case SetClock(_) =>
    case DoGetNext =>
    case DoAdd(b, born, ms, cb, recurring) => AddIntegrity(w.q, b, born, ms, cb, recurring);
    case DoCancel(b) =>
      CancelIntegrity(w.q, b);
      SumAppend(w.cancelled, b, Is(a));
    case DoRefresh(b) => RefreshIntegrity(w.q, b, w.clock);
    case DoReset(b, ms, fromNow) => ResetIntegrity(w.q, b, ms, fromNow, w.clock);
    case DoExpire(now, probe) =>
      ExpireExact(w.q, now, probe);
      var cbs := Expire(w.q, now, probe).1;
      HandedOnce(w, now, |cbs|, a);
      SumConcat(w.handed, Handed(w, now, |cbs|), IsHandOutOf(a));
  }

  /** `reset` without `from_now` keeps the arming time; with it, or by `refresh`, the time is the
      current one. Either way the new deadline is arming time plus period. */
  lemma ResetKeepsArmingTime(w: World, a: nat, ms: u64, fromNow: bool)
    requires RunInv(w) && a in w.q.armed
    requires var w' := Apply(w, DoReset(a, ms, fromNow)); w'.Clean()
    ensures var w' := Apply(w, DoReset(a, ms, fromNow));
            && a in w'.q.recs && a in w'.armedAt
            && w'.armedAt[a] == (if fromNow then w.clock else w.armedAt[a])
            && w'.q.recs[a].next == w'.armedAt[a] + ms
            && w'.q.recs[a].ms == ms
  {
    ResetIntegrity(w.q, a, ms, fromNow, w.clock);
    StepKeepsInv(w, DoReset(a, ms, fromNow));
  }

  /** Why the clock must not go back: one rollover re-arms a recurring timer before the deadline the
      sleeper knows about, and nobody is notified. */
  lemma RolloverMissesWakeUp() returns (ops: seq<Op>)
    ensures var w := After(10_000_000, ops);
            && !w.q.tickled && w.seen == Some(10_005_000)
            && exists a :: a in w.q.armed && a in w.q.recs && w.q.recs[a].next < 10_005_000
  {
    ops := [DoAdd(1, 10_000_000, 5000, User(0), true), DoGetNext, SetClock(1_000_000), DoExpire(1_000_000, 0)];
    var w0 := Start(10_000_000);
    StartInv(10_000_000);
    RunOne(w0, ops);
    AddIntegrity(w0.q, 1, 10_000_000, 5000, User(0), true);
    var w1 := Apply(w0, ops[0]);
    assert w1.q.armed == [1];
    RunOne(w1, ops[1..]);
    RunOne(Apply(w1, DoGetNext), ops[2..]);
    RollBack(Apply(Apply(w1, DoGetNext), SetClock(1_000_000)), ops[3..]);
  }

  lemma RollBack(w: World, ops: seq<Op>)
    requires RunInv(w) && w.clock == 1_000_000 && w.q.prev == 10_000_000 && w.q.armed == [1] && !w.q.tickled
    requires 1 in w.q.recs && w.q.recs[1].ms == 5000 && w.q.recs[1].recurring
    requires ops == [DoExpire(1_000_000, 0)]
    ensures var w' := Run(w, ops);
            && !w'.q.tickled && w'.seen == w.seen
            && 1 in w'.q.armed && 1 in w'.q.recs && w'.q.recs[1].next == 1_005_000
  {
    RunOne(w, ops);
    RolloverExactly(w.q.prev, 1_000_000);
    ExpireExact(w.q, 1_000_000, 0);
    assert 1 in w.q.armed && Due(w.q, 1_000_000, 1);
  }

  lemma RunOne(w: World, ops: seq<Op>)
    requires RunInv(w) && ops != [] && Enabled(w, ops[0])
    ensures RunInv(Apply(w, ops[0])) && Run(w, ops) == Run(Apply(w, ops[0]), ops[1..])
  {
    StepKeepsInv(w, ops[0]);
  }
}
