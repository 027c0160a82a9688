/** `Timer` and `TimeManager` of sylar/timer.h as objects: the ordered set holds shared timers whose
    sort key is a field that the operations rewrite. Every method is tied to the value-level operation
    of the same name in TimerSpec. */
module Timers {
  import opened Common
  import opened TimerSpec

  class Timer {
    const addr: nat
    const recurring: bool
    var next: u64
    var ms: u64
    var cb: Option<Callback>

    constructor (addr: nat, born: u64, ms: u64, cb: Callback, recurring: bool)
      ensures this.addr == addr && this.recurring == recurring && this.ms == ms
      ensures this.next == Add64(born, ms) && this.cb == Some(cb)
    {
      this.addr := addr;
      this.recurring := recurring;
      this.next := Add64(born, ms);
      this.ms := ms;
      this.cb := Some(cb);
    }

    function Rec(): TimerRec
      reads this
    {
      TimerRec(next, ms, recurring, cb)
    }
  }

  function Addresses(ts: seq<Timer>): (r: seq<nat>)
    ensures |r| == |ts|
  {
    seq(|ts|, i requires 0 <= i < |ts| => ts[i].addr)
  }

  /** `lower_bound` is determined by what it separates. */
  lemma LowerBoundIs(recs: Records, xs: seq<nat>, k: Key, r: nat)
    requires Known(recs, xs) && r <= |xs|
    requires forall i :: 0 <= i < r ==> Less(KeyOf(recs, xs[i]), k)
    requires r < |xs| ==> !Less(KeyOf(recs, xs[r]), k)
    ensures LowerBound(recs, xs, k) == r
  {
    var l := LowerBound(recs, xs, k);
    var i := if l < r then l else r;
    assert i < |xs| ==> (i < l <==> Less(KeyOf(recs, xs[i]), k));
  }

  /** `find` looks at deadlines and addresses only. */
  lemma FindIgnoresCallback(recs: Records, xs: seq<nat>, a: nat, cb: Option<Callback>)
    requires Known(recs, xs) && a in recs
    ensures Known(recs[a := recs[a].(cb := cb)], xs)
    ensures Find(recs[a := recs[a].(cb := cb)], xs, a) == Find(recs, xs, a)
  {
    var recs' := recs[a := recs[a].(cb := cb)];
    forall i | 0 <= i < |xs| ensures xs[i] in recs' && KeyOf(recs', xs[i]) == KeyOf(recs, xs[i]) {}
    LowerBoundIs(recs', xs, KeyOf(recs, a), LowerBound(recs, xs, KeyOf(recs, a)));
  }

  class TimeManager {
    var timers: seq<Timer>
    var tickled: bool
    var prev: u64
    /** Every timer this manager created, by address. */
    ghost var all: map<nat, Timer>

    ghost predicate Valid()
      reads this
    {
      && (forall a :: a in all ==> all[a].addr == a)
      && (forall i :: 0 <= i < |timers| ==> timers[i].addr in all && all[timers[i].addr] == timers[i])
    }

    ghost predicate Manages(t: Timer)
      reads this`all
    {
      t.addr in all && all[t.addr] == t
    }

    ghost function Recs(): Records
      reads this`all, all.Values
    {
      map a | a in all :: all[a].Rec()
    }

    /** The abstract queue. */
    ghost function Q(): Queue
      reads this, all.Values
    {
      Queue(Recs(), Addresses(timers), tickled, prev)
    }

    constructor (clock: u64)
      ensures Valid() && Q() == Queue(map[], [], false, clock) && Inv(Q())
    {
      timers, tickled, prev, all := [], false, clock, map[];
    }

    /** `m_timers.lower_bound(k)`. */
    method SetLowerBound(k: Key) returns (i: nat)
      requires Valid() && Known(Q().recs, Q().armed)
      ensures i == LowerBound(Q().recs, Q().armed, k)
    {
      i := 0;
      while i < |timers| && Less(Key(timers[i].next, timers[i].addr), k)
        invariant i <= |timers|
        invariant forall j :: 0 <= j < i ==> Less(KeyOf(Q().recs, Q().armed[j]), k)
      {
        i := i + 1;
      }
      LowerBoundIs(Q().recs, Q().armed, k, i);
    }

    /** `m_timers.find(t)`; `|timers|` is `end()`. */
    method SetFind(t: Timer) returns (i: nat)
      requires Valid() && Known(Q().recs, Q().armed) && Manages(t)
      ensures i == Find(Q().recs, Q().armed, t.addr) <= |timers|
    {
      i := SetLowerBound(Key(t.next, t.addr));
      if i < |timers| && Less(Key(t.next, t.addr), Key(timers[i].next, timers[i].addr)) {
        i := |timers|;
      }
    }

    method SetInsertAt(i: nat, t: Timer)
      requires Valid() && Manages(t) && i <= |timers|
      modifies this`timers
      ensures Valid()
      ensures Addresses(timers) == old(Addresses(timers))[..i] + [t.addr] + old(Addresses(timers))[i..]
    {
      timers := timers[..i] + [t] + timers[i..];
    }

    /** `m_timers.insert(t)`. */
    method SetInsert(t: Timer) returns (i: nat)
      requires Valid() && Known(Q().recs, Q().armed) && Manages(t)
      modifies this`timers
      ensures Valid() && (Addresses(timers), i) == Insert(old(Q().recs), old(Q().armed), t.addr)
    {
      hide LowerBound;
      i := SetLowerBound(Key(t.next, t.addr));
      if i == |timers| || Less(Key(t.next, t.addr), Key(timers[i].next, timers[i].addr)) {
        SetInsertAt(i, t);
      }
    }

    /** `m_timers.erase(it)`. */
    method SetErase(i: nat)
      requires Valid() && i < |timers|
      modifies this`timers
      ensures Valid() && Addresses(timers) == Erase(old(Addresses(timers)), i)
    {
      timers := timers[..i] + timers[i + 1..];
    }

    /** Writes to one timer's fields, as seen through the records. */
    method SetCallback(t: Timer, cb: Option<Callback>)
      requires Valid() && Manages(t)
      modifies t`cb
      ensures Recs() == old(Recs())[t.addr := old(Recs())[t.addr].(cb := cb)]
    {
      t.cb := cb;
    }

    method SetDeadline(t: Timer, ms: u64, next: u64)
      requires Valid() && Manages(t)
      modifies t`ms, t`next
      ensures Recs() == old(Recs())[t.addr := old(Recs())[t.addr].(ms := ms, next := next)]
    {
      t.ms := ms;
      t.next := next;
    }

    /** `Timer::cancel`. */
    method Cancel(t: Timer) returns (ok: bool)
      requires Valid() && Inv(Q()) && Manages(t)
      modifies this`timers, t`cb
      ensures Valid() && (Q(), ok) == TimerSpec.Cancel(old(Q()), t.addr)
    {
      hide Find, LowerBound;
      if t.cb.None? { return false; }
      ghost var q := Q();
      FindIgnoresCallback(q.recs, q.armed, t.addr, None);
      FindLocates(q.recs, q.armed, t.addr);
      SetCallback(t, None);
      var i := SetFind(t);
      SetErase(i);
      return true;
    }

    /** `Timer::refresh` with the clock reading `now`. */
    method Refresh(t: Timer, now: u64) returns (ok: bool)
      requires Valid() && Inv(Q()) && Manages(t)
      modifies this`timers, t`next, t`ms
      ensures Valid() && (Q(), ok) == TimerSpec.Refresh(old(Q()), t.addr, now)
    {
      hide Find, LowerBound, Insert;
      if t.cb.None? { return false; }
      var i := SetFind(t);
      if i == |timers| { return false; }
      SetErase(i);
      SetDeadline(t, t.ms, Add64(now, t.ms));
      var _ := SetInsert(t);
      return true;
    }

    /** The protected `addTimer`; `notify` tells that `onTimerInsertedAtFront` has to run. */
    method ArmTimer(t: Timer) returns (notify: bool)
      requires Valid() && Known(Q().recs, Q().armed) && Manages(t)
      modifies this`timers, this`tickled
      ensures Valid() && (Q(), notify) == Arm(old(Q()), t.addr)
    {
      var i := SetInsert(t);
      notify := i == 0 && !tickled;
      if notify {
        tickled := true;
      }
    }

    /** `Timer::reset`. */
    method Reset(t: Timer, ms: u64, fromNow: bool, now: u64) returns (ok: bool, notify: bool)
      requires Valid() && Inv(Q()) && Manages(t)
      modifies this`timers, this`tickled, t`next, t`ms
      ensures Valid() && (Q(), ok, notify) == TimerSpec.Reset(old(Q()), t.addr, ms, fromNow, now)
    {
      hide Find, LowerBound, Insert, Arm;
      if ms == t.ms && !fromNow { return true, false; }
      if t.cb.None? { return false, false; }
      var i := SetFind(t);
      if i == |timers| { return false, false; }
      ghost var q := Q();
      var start := if fromNow then now else Sub64(t.next, t.ms);
      FindLocates(q.recs, q.armed, t.addr);
      EraseSorted(q.recs, q.armed, i);
      OutsideRewrite(q.recs, Erase(q.armed, i), t.addr, q.recs[t.addr].(ms := ms, next := Add64(start, ms)));
      SetErase(i);
      SetDeadline(t, ms, Add64(start, ms));
      assert Q().recs == q.recs[t.addr := q.recs[t.addr].(ms := ms, next := Add64(start, ms))];
      assert Sorted(Q().recs, Q().armed);
      notify := ArmTimer(t);
      return true, notify;
    }

    /** The public `addTimer`: `addr` is where the new object lies, `born` the constructor's reading. */
    method AddTimer(addr: nat, born: u64, ms: u64, cb: Callback, recurring: bool)
      returns (t: Timer, notify: bool)
      requires Valid() && Inv(Q()) && addr !in all
      modifies this`timers, this`tickled, this`all
      ensures fresh(t) && t.addr == addr && all == old(all)[addr := t]
      ensures Valid() && (Q(), notify) == Add(old(Q()), addr, born, ms, cb, recurring)
    {
      ghost var q := Q();
      t := new Timer(addr, born, ms, cb, recurring);
      all := all[addr := t];
      assert Q().recs == q.recs[addr := t.Rec()];
      notify := ArmTimer(t);
    }

    /** `getNextTimer`. */
    method GetNextTimer(now: u64) returns (wait: u64)
      requires Valid() && Inv(Q())
      modifies this`tickled
      ensures Valid() && (Q(), wait) == GetNext(old(Q()), now)
    {
      tickled := false;
      if timers == [] { return U64 - 1; }
      if now >= timers[0].next { return 0; }
      return timers[0].next - now;
    }

    /** `detectClockRollover`. */
    method DetectClockRollover(now: u64) returns (rollover: bool)
      modifies this`prev
      ensures rollover == Rollover(old(prev), now) && prev == now
    {
      rollover := false;
      if now < prev && now < Sub64(prev, HOUR_MS) {
        rollover := true;
      }
      prev := now;
    }

    /** The end of the expired range, in `listExpiredCb`. */
    method CountExpired(now: u64, probe: nat, rollover: bool) returns (it: nat)
      requires Valid() && Known(Q().recs, Q().armed)
      ensures it == ExpiredCount(Q().recs, Q().armed, now, probe, rollover)
    {
      it := |timers|;
      if !rollover {
        it := SetLowerBound(Key(now, probe));
      }
      ghost var from := it;
      while it < |timers| && timers[it].next == now
        invariant from <= it <= |timers|
        invariant SkipEqual(Q().recs, Q().armed, it, now) == SkipEqual(Q().recs, Q().armed, from, now)
      {
        it := it + 1;
      }
    }

    /** `listExpiredCb`. */
    method ListExpiredCb(now: u64, probe: nat) returns (cbs: seq<Callback>)
      requires Valid() && Inv(Q())
      modifies this`timers, this`prev, all.Values
      ensures Valid() && all == old(all)
      ensures (Q(), cbs) == Expire(old(Q()), now, probe)
    {
      hide RearmAll, ExpiredCount, MidLoop, Rollover;
      cbs := [];
      ghost var q := Q();
      if timers == [] { return; }
      var rollover := DetectClockRollover(now);
      if !rollover && timers[0].next > now { return; }
      var it := CountExpired(now, probe, rollover);
      SplitIsMidLoop(q, it);
      cbs := TakeExpired(it, now);
    }

    /** Copying the first `it` elements out, erasing them, and the loop over them. */
    method TakeExpired(it: nat, now: u64) returns (cbs: seq<Callback>)
      requires Valid() && it <= |timers| && MidLoop(Q().recs, Q().armed[it..], Q().armed[..it])
      modifies this`timers, all.Values
      ensures Valid() && all == old(all)
      ensures var b := RearmAll(old(Q().recs), old(Q().armed)[it..], old(Q().armed)[..it], now);
              Q().recs == b.recs && Q().armed == b.armed && cbs == b.cbs
    {
      ghost var q := Q();
      var expired := timers[..it];
      timers := timers[it..];
      assert Addresses(expired) == q.armed[..it] && Addresses(timers) == q.armed[it..];
      cbs := RearmLoop(expired, now);
    }

    /** The body of that loop. */
    method RearmOne(t: Timer, now: u64)
      requires Valid() && Manages(t) && Known(Q().recs, Q().armed)
      modifies this`timers, t
      ensures Valid() && (Q().recs, Q().armed) == Rearm(old(Q().recs), old(Q().armed), t.addr, now)
    {
      if t.recurring {
        SetDeadline(t, t.ms, Add64(now, t.ms));
        var _ := SetInsert(t);
      } else {
        SetCallback(t, None);
      }
    }

    /** The loop over the expired timers. */
    method RearmLoop(expired: seq<Timer>, now: u64) returns (cbs: seq<Callback>)
      requires Valid() && MidLoop(Q().recs, Q().armed, Addresses(expired))
      requires forall i :: 0 <= i < |expired| ==> Manages(expired[i])
      modifies this`timers, all.Values
      ensures Valid() && all == old(all)
      ensures var b := RearmAll(old(Q().recs), old(Q().armed), Addresses(expired), now);
              Q().recs == b.recs && Q().armed == b.armed && cbs == b.cbs
    {
      hide Rearm, Insert;
      cbs := [];
      ghost var b := RearmAll(Q().recs, Q().armed, Addresses(expired), now);
      var n := 0;
      while n < |expired|
        invariant 0 <= n <= |expired|
        invariant Valid() && all == old(all)
        invariant MidLoop(Q().recs, Q().armed, Addresses(expired[n..]))
        invariant var rest := RearmAll(Q().recs, Q().armed, Addresses(expired[n..]), now);
                  b == Batch(rest.recs, rest.armed, cbs + rest.cbs)
      {
        ghost var todo := Addresses(expired[n..]);
        assert todo[0] == expired[n].addr && todo[1..] == Addresses(expired[n + 1..]);
        RearmStep(Q().recs, Q().armed, todo, now);
        cbs := cbs + [expired[n].cb.value];
        RearmOne(expired[n], now);
        n := n + 1;
      }
      assert expired[n..] == [];
    }

    /** `hasTimer`. */
    method HasTimer() returns (r: bool)
      requires Valid() && Inv(Q())
      ensures r <==> exists a :: a in Q().recs && Q().recs[a].cb.Some?
    {
      r := timers != [];
      if r {
        assert Q().armed[0] in Q().armed;
      }
    }
  }
}
