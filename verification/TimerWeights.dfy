/** What the timer queue holds, by weight: for any weight of callbacks, how much is armed before and
    after each operation. */
module TimerWeights {
  import opened Common
  import opened Sums
  import opened TimerSpec

  function OfTimer(recs: Records, g: Callback -> int): nat -> int {
    (a: nat) => if a in recs && recs[a].cb.Some? then g(recs[a].cb.value) else 0
  }

  /** The weight of the armed callbacks. */
  function Armed(q: Queue, g: Callback -> int): int { Sum(q.armed, OfTimer(q.recs, g)) }

  /** Inserting a new element adds its weight. */
  lemma InsertWeight(recs: Records, xs: seq<nat>, a: nat, g: Callback -> int)
    requires Sorted(recs, xs) && a in recs && a !in xs
    ensures Sum(Insert(recs, xs, a).0, OfTimer(recs, g)) == Sum(xs, OfTimer(recs, g)) + OfTimer(recs, g)(a)
  {
    InsertPosition(recs, xs, a);
    SumInsert(xs, LowerBound(recs, xs, KeyOf(recs, a)), a, OfTimer(recs, g));
  }

  /** Rewriting a timer outside the set does not change what is armed. */
  lemma RewriteWeight(recs: Records, xs: seq<nat>, a: nat, r: TimerRec, g: Callback -> int)
    requires a !in xs
    ensures Sum(xs, OfTimer(recs[a := r], g)) == Sum(xs, OfTimer(recs, g))
  {
    forall i | 0 <= i < |xs| ensures OfTimer(recs[a := r], g)(xs[i]) == OfTimer(recs, g)(xs[i]) {
      assert xs[i] in xs;
    }
    SumCongruent(xs, OfTimer(recs[a := r], g), OfTimer(recs, g));
  }

  lemma AddWeight(q: Queue, a: nat, born: u64, ms: u64, cb: Callback, recurring: bool, g: Callback -> int)
    requires Inv(q) && a !in q.recs
    ensures Armed(Add(q, a, born, ms, cb, recurring).0, g) == Armed(q, g) + g(cb)
  {
    var r := TimerRec(Add64(born, ms), ms, recurring, Some(cb));
    assert a !in q.armed;
    OutsideRewrite(q.recs, q.armed, a, r);
    RewriteWeight(q.recs, q.armed, a, r, g);
    InsertWeight(q.recs[a := r], q.armed, a, g);
  }

  /** Cancelling takes away exactly the cancelled callback. */
  lemma CancelWeight(q: Queue, a: nat, g: Callback -> int)
    requires Inv(q) && a in q.recs
    ensures Armed(Cancel(q, a).0, g) == Armed(q, g) - OfTimer(q.recs, g)(a)
  {
    if q.recs[a].cb.Some? {
      FindLocates(q.recs, q.armed, a);
      var i := Find(q.recs, q.armed, a);
      EraseSorted(q.recs, q.armed, i);
      SumRemove(q.armed, i, OfTimer(q.recs, g));
      RewriteWeight(q.recs, Erase(q.armed, i), a, q.recs[a].(cb := None), g);
    }
  }

  lemma RefreshWeight(q: Queue, a: nat, now: u64, g: Callback -> int)
    requires Inv(q) && a in q.recs
    ensures Armed(Refresh(q, a, now).0, g) == Armed(q, g)
  {
    hide Find, LowerBound, Insert, Less;
    if q.recs[a].cb.Some? {
      FindLocates(q.recs, q.armed, a);
      var i := Find(q.recs, q.armed, a);
      EraseSorted(q.recs, q.armed, i);
      SumRemove(q.armed, i, OfTimer(q.recs, g));
      var r := q.recs[a].(next := Add64(now, q.recs[a].ms));
      RewriteWeight(q.recs, Erase(q.armed, i), a, r, g);
      OutsideRewrite(q.recs, Erase(q.armed, i), a, r);
      InsertWeight(q.recs[a := r], Erase(q.armed, i), a, g);
    }
  }

  lemma ResetWeight(q: Queue, a: nat, ms: u64, fromNow: bool, now: u64, g: Callback -> int)
    requires Inv(q) && a in q.recs
    ensures Armed(Reset(q, a, ms, fromNow, now).0, g) == Armed(q, g)
  {
    if a in q.armed && (ms != q.recs[a].ms || fromNow) {
      hide Reset;
      ResetIsArm(q, a, ms, fromNow, now);
      var q1 := Rekeyed(q, a, ms, fromNow, now);
      FindLocates(q.recs, q.armed, a);
      var i := Find(q.recs, q.armed, a);
      SumRemove(q.armed, i, OfTimer(q.recs, g));
      RewriteWeight(q.recs, Erase(q.armed, i), a, q1.recs[a], g);
      InsertWeight(q1.recs, q1.armed, a, g);
    } else {
      ResetIntegrity(q, a, ms, fromNow, now);
    }
  }

  /** A weight that no recurring timer carries. */
  ghost predicate OneShotOnly(recs: Records, g: Callback -> int) {
    forall a :: a in recs && recs[a].recurring && recs[a].cb.Some? ==> g(recs[a].cb.value) == 0
  }

  lemma {:induction false} RearmAllWeight(recs: Records, armed: seq<nat>, expired: seq<nat>, now: u64, g: Callback -> int)
    requires MidLoop(recs, armed, expired) && OneShotOnly(recs, g)
    ensures var b := RearmAll(recs, armed, expired, now);
            Sum(b.armed, OfTimer(b.recs, g)) + Sum(b.cbs, g) == Sum(armed, OfTimer(recs, g)) + Sum(expired, OfTimer(recs, g))
    decreases |expired|
  {
    if expired != [] {
      var a := expired[0];
      var one := Rearm(recs, armed, a, now);
      RearmStep(recs, armed, expired, now);
      RearmAllWeight(one.0, one.1, expired[1..], now, g);
      assert a !in armed && a !in expired[1..];
      RewriteWeight(recs, armed, a, one.0[a], g);
      RewriteWeight(recs, expired[1..], a, one.0[a], g);
      if recs[a].recurring {
        OutsideRewrite(recs, armed, a, one.0[a]);
        InsertWeight(one.0, armed, a, g);
      }
    }
  }

  /** Expiry moves weight from the queue to the callbacks handed out; a callback that only one-shot
      timers carry is never both armed and handed out. */
  lemma ExpireWeight(q: Queue, now: u64, probe: nat, g: Callback -> int)
    requires Inv(q) && OneShotOnly(q.recs, g)
    ensures Armed(Expire(q, now, probe).0, g) + Sum(Expire(q, now, probe).1, g) == Armed(q, g)
  {
    hide RearmAll, ExpiredCount, MidLoop, Rollover, OfTimer, OneShotOnly;
    if q.armed != [] && (Rollover(q.prev, now) || q.recs[q.armed[0]].next <= now) {
      var n := ExpiredCount(q.recs, q.armed, now, probe, Rollover(q.prev, now));
      SplitIsMidLoop(q, n);
      RearmAllWeight(q.recs, q.armed[n..], q.armed[..n], now, g);
      SumConcat(q.armed[..n], q.armed[n..], OfTimer(q.recs, g));
      assert q.armed == q.armed[..n] + q.armed[n..];
    }
  }
}
