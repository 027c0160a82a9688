/** The timer queue of sylar/timer.cpp as a value: what every operation of `Timer` and `TimeManager`
    does to the ordered set, and what the set looks like afterwards.

    `armed` lists the elements of `m_timers` in the order of the set. The sort key of an element is
    read through `recs`, because `m_next` is a field of the timer and not part of the set: changing
    `recs` alone can break the order. */
module TimerSpec {
  import opened Common

  const U64: int := 0x1_0000_0000_0000_0000
  const HOUR_MS: int := 60 * 60 * 1000

  /** `uint64_t`, with its wrapping addition and subtraction. */
  type u64 = x: int | 0 <= x < U64 witness 0
  function Add64(a: u64, b: u64): u64 { if a + b < U64 then a + b else a + b - U64 }
  function Sub64(a: u64, b: u64): u64 { if a >= b then a - b else a - b + U64 }

  /** The mutable fields of one `Timer`; an empty `std::function` is `None`. */
  datatype TimerRec = TimerRec(next: u64, ms: u64, recurring: bool, cb: Option<Callback>)

  /** `recs` is keyed by the timer's address. */
  type Records = map<nat, TimerRec>

  datatype Queue = Queue(recs: Records, armed: seq<nat>, tickled: bool, prev: u64)

  datatype Key = Key(next: u64, addr: nat)

  /** `Timer::Comparator` on two non-null timers. */
  predicate Less(k: Key, l: Key) {
    if k.next < l.next then true
    else if k.next > l.next then false
    else k.addr < l.addr
  }

  function KeyOf(recs: Records, a: nat): Key
    requires a in recs
  {
    Key(recs[a].next, a)
  }

  ghost predicate Known(recs: Records, xs: seq<nat>) {
    forall i :: 0 <= i < |xs| ==> xs[i] in recs
  }

  ghost predicate Sorted(recs: Records, xs: seq<nat>) {
    && Known(recs, xs)
    && forall i, j :: 0 <= i < j < |xs| ==> Less(KeyOf(recs, xs[i]), KeyOf(recs, xs[j]))
  }

  /** `std::set::lower_bound`: the first position whose element is not less than `k`. */
  function LowerBound(recs: Records, xs: seq<nat>, k: Key): (r: nat)
    requires Known(recs, xs)
    ensures r <= |xs|
    ensures forall i :: 0 <= i < r ==> Less(KeyOf(recs, xs[i]), k)
    ensures r < |xs| ==> !Less(KeyOf(recs, xs[r]), k)
  {
    if xs == [] || !Less(KeyOf(recs, xs[0]), k) then 0
    else
      assert forall i :: 0 <= i < |xs[1..]| ==> xs[1..][i] == xs[i + 1];
      1 + LowerBound(recs, xs[1..], k)
  }

  /** `std::set::find`; the position `|xs|` is `end()`. */
  function Find(recs: Records, xs: seq<nat>, a: nat): (r: nat)
    requires Known(recs, xs) && a in recs
    ensures r <= |xs|
  {
    var r := LowerBound(recs, xs, KeyOf(recs, a));
    if r < |xs| && !Less(KeyOf(recs, a), KeyOf(recs, xs[r])) then r else |xs|
  }

  /** `std::set::insert`: the new order and the position of the element (or of the one that blocks it). */
  function Insert(recs: Records, xs: seq<nat>, a: nat): (r: (seq<nat>, nat))
    requires Known(recs, xs) && a in recs
    ensures r.1 < |r.0|
  {
    var i := LowerBound(recs, xs, KeyOf(recs, a));
    if i < |xs| && !Less(KeyOf(recs, a), KeyOf(recs, xs[i])) then (xs, i)
    else (xs[..i] + [a] + xs[i..], i)
  }

  function Erase(xs: seq<nat>, i: nat): seq<nat>
    requires i < |xs|
  {
    xs[..i] + xs[i + 1..]
  }

  /** The integrity of the mutable-key set: strictly sorted, and holding exactly the timers whose
      callback is not empty. */
  ghost predicate Inv(q: Queue) {
    && Sorted(q.recs, q.armed)
    && (forall a :: a in q.recs ==> (q.recs[a].cb.Some? <==> a in q.armed))
  }

  /** In a sorted set, `find` reaches every element, at its own position. */
  lemma FindLocates(recs: Records, xs: seq<nat>, a: nat)
    requires Sorted(recs, xs) && a in recs
    ensures a in xs ==> Find(recs, xs, a) < |xs| && xs[Find(recs, xs, a)] == a
    ensures a !in xs ==> Find(recs, xs, a) == |xs|
  {
    var r := LowerBound(recs, xs, KeyOf(recs, a));
    if a in xs {
      var i :| 0 <= i < |xs| && xs[i] == a;
      assert r <= i;
    }
  }

  /** In a sorted set, a new element belongs between the elements below and above its lower bound. */
  lemma InsertPosition(recs: Records, xs: seq<nat>, a: nat)
    requires Sorted(recs, xs) && a in recs && a !in xs
    ensures var i := LowerBound(recs, xs, KeyOf(recs, a));
            && (forall j :: 0 <= j < i ==> Less(KeyOf(recs, xs[j]), KeyOf(recs, a)))
            && (forall j :: i <= j < |xs| ==> Less(KeyOf(recs, a), KeyOf(recs, xs[j])))
            && Insert(recs, xs, a) == (xs[..i] + [a] + xs[i..], i)
  {
    var i := LowerBound(recs, xs, KeyOf(recs, a));
    forall j | i <= j < |xs| ensures Less(KeyOf(recs, a), KeyOf(recs, xs[j])) {
      assert xs[i] in xs && KeyOf(recs, xs[i]) != KeyOf(recs, a);
      assert j > i ==> Less(KeyOf(recs, xs[i]), KeyOf(recs, xs[j]));
    }
  }

  lemma InsertMembers(xs: seq<nat>, i: nat, a: nat)
    requires i <= |xs|
    ensures forall b :: b in xs[..i] + [a] + xs[i..] <==> b in xs || b == a
  {
    forall b | b in xs ensures b in xs[..i] + [a] + xs[i..] {
      assert xs == xs[..i] + xs[i..];
    }
  }

  lemma InsertOrder(recs: Records, xs: seq<nat>, i: nat, a: nat)
    requires Sorted(recs, xs) && a in recs && i <= |xs|
    requires forall j :: 0 <= j < i ==> Less(KeyOf(recs, xs[j]), KeyOf(recs, a))
    requires forall j :: i <= j < |xs| ==> Less(KeyOf(recs, a), KeyOf(recs, xs[j]))
    ensures Sorted(recs, xs[..i] + [a] + xs[i..])
  {
    var ys := xs[..i] + [a] + xs[i..];
    forall p | 0 <= p < |ys| ensures ys[p] in recs {
      assert ys[p] == if p < i then xs[p] else if p == i then a else xs[p - 1];
    }
    forall p, q | 0 <= p < q < |ys| ensures Less(KeyOf(recs, ys[p]), KeyOf(recs, ys[q])) {
      assert ys[p] == if p < i then xs[p] else if p == i then a else xs[p - 1];
      assert ys[q] == if q < i then xs[q] else if q == i then a else xs[q - 1];
    }
  }

  /** Inserting a new element keeps the order and adds that element only. */
  lemma InsertSorted(recs: Records, xs: seq<nat>, a: nat)
    requires Sorted(recs, xs) && a in recs && a !in xs
    ensures Sorted(recs, Insert(recs, xs, a).0)
    ensures forall b :: b in Insert(recs, xs, a).0 <==> b in xs || b == a
    ensures Insert(recs, xs, a).0[Insert(recs, xs, a).1] == a
  {
    InsertPosition(recs, xs, a);
    var i := LowerBound(recs, xs, KeyOf(recs, a));
    InsertMembers(xs, i, a);
    InsertOrder(recs, xs, i, a);
  }

  lemma EraseSorted(recs: Records, xs: seq<nat>, i: nat)
    requires Sorted(recs, xs) && i < |xs|
    ensures Sorted(recs, Erase(xs, i))
    ensures forall b :: b in Erase(xs, i) <==> b in xs && b != xs[i]
  {
    forall b | b in xs && b != xs[i] ensures b in Erase(xs, i) {
      var j :| 0 <= j < |xs| && xs[j] == b;
      assert Erase(xs, i)[if j < i then j else j - 1] == b;
    }
    forall j | 0 <= j < |Erase(xs, i)| ensures Erase(xs, i)[j] == xs[if j < i then j else j + 1] {}
  }

  /** Rewriting the record of a timer outside the set cannot disturb the set. */
  lemma OutsideRewrite(recs: Records, xs: seq<nat>, a: nat, r: TimerRec)
    requires Sorted(recs, xs) && a !in xs
    ensures Sorted(recs[a := r], xs)
  {
    forall i | 0 <= i < |xs| ensures xs[i] in recs[a := r] && KeyOf(recs[a := r], xs[i]) == KeyOf(recs, xs[i]) {
      assert xs[i] in xs;
    }
  }

  // ---------------------------------------------------------------- the operations

  /** `Timer::cancel`. The result of `find` is erased without a test; that the position is a real one
      is a proof obligation of this function. */
  function Cancel(q: Queue, a: nat): (r: (Queue, bool))
    requires Inv(q) && a in q.recs
  {
    if q.recs[a].cb.None? then (q, false)
    else
      FindLocates(q.recs, q.armed, a);
      var i := Find(q.recs, q.armed, a);
      (q.(recs := q.recs[a := q.recs[a].(cb := None)], armed := Erase(q.armed, i)), true)
  }

  /** `Timer::refresh` at clock reading `now`. */
  function Refresh(q: Queue, a: nat, now: u64): (r: (Queue, bool))
    requires Inv(q) && a in q.recs
  {
    if q.recs[a].cb.None? then (q, false)
    else
      var i := Find(q.recs, q.armed, a);
      if i == |q.armed| then (q, false)
      else
        EraseSorted(q.recs, q.armed, i);
        FindLocates(q.recs, q.armed, a);
        var recs := q.recs[a := q.recs[a].(next := Add64(now, q.recs[a].ms))];
        OutsideRewrite(q.recs, Erase(q.armed, i), a, recs[a]);
        (q.(recs := recs, armed := Insert(recs, Erase(q.armed, i), a).0), true)
  }

  /** The protected `TimeManager::addTimer`: insert, and ask for a wake-up when the new element became
      the first one and none was asked for since the last `getNextTimer`. The second result tells
      whether `onTimerInsertedAtFront` runs. */
  function Arm(q: Queue, a: nat): (r: (Queue, bool))
    requires Known(q.recs, q.armed) && a in q.recs
  {
    var ins := Insert(q.recs, q.armed, a);
    var atFront := ins.1 == 0 && !q.tickled;
    (q.(armed := ins.0, tickled := q.tickled || atFront), atFront)
  }

  /** `Timer::reset`; the results are the new queue, the return value, and whether
      `onTimerInsertedAtFront` runs. */
  function Reset(q: Queue, a: nat, ms: u64, fromNow: bool, now: u64): (r: (Queue, bool, bool))
    requires Inv(q) && a in q.recs
  {
    var t := q.recs[a];
    if ms == t.ms && !fromNow then (q, true, false)
    else if t.cb.None? then (q, false, false)
    else
      var i := Find(q.recs, q.armed, a);
      if i == |q.armed| then (q, false, false)
      else
        EraseSorted(q.recs, q.armed, i);
        FindLocates(q.recs, q.armed, a);
        var start := if fromNow then now else Sub64(t.next, t.ms);
        var recs := q.recs[a := t.(ms := ms, next := Add64(start, ms))];
        OutsideRewrite(q.recs, Erase(q.armed, i), a, recs[a]);
        var r := Arm(q.(recs := recs, armed := Erase(q.armed, i)), a);
        (r.0, true, r.1)
  }

  /** The public `TimeManager::addTimer`: `born` is the clock reading of the `Timer` constructor, which
      runs before the lock is taken, and `a` is the address of the new object. */
  function Add(q: Queue, a: nat, born: u64, ms: u64, cb: Callback, recurring: bool): (r: (Queue, bool))
    requires Inv(q) && a !in q.recs
  {
    var recs := q.recs[a := TimerRec(Add64(born, ms), ms, recurring, Some(cb))];
    assert Known(recs, q.armed) by {
      forall i | 0 <= i < |q.armed| ensures q.armed[i] in recs {}
    }
    Arm(q.(recs := recs), a)
  }

  /** `TimeManager::getNextTimer` at clock reading `now`. */
  function GetNext(q: Queue, now: u64): (r: (Queue, u64))
    requires Known(q.recs, q.armed)
  {
    (q.(tickled := false),
     if q.armed == [] then U64 - 1
     else if now >= q.recs[q.armed[0]].next then 0
     else q.recs[q.armed[0]].next - now)
  }

  /** `TimeManager::detectClockRollover`: `m_previouseTime - 3600000` is unsigned. */
  function Rollover(prev: u64, now: u64): bool {
    now < prev && now < Sub64(prev, HOUR_MS)
  }

  /** The scan `while (it != end && (*it)->m_next == now_ms) ++it`. */
  function SkipEqual(recs: Records, xs: seq<nat>, i: nat, now: u64): (r: nat)
    requires Known(recs, xs) && i <= |xs|
    ensures i <= r <= |xs|
    ensures forall j :: i <= j < r ==> recs[xs[j]].next == now
    ensures r < |xs| ==> recs[xs[r]].next != now
    decreases |xs| - i
  {
    if i < |xs| && recs[xs[i]].next == now then SkipEqual(recs, xs, i + 1, now) else i
  }

  /** How many elements `listExpiredCb` takes from the front: `probe` is the address of the stack-free
      probe timer handed to `lower_bound`. */
  function ExpiredCount(recs: Records, armed: seq<nat>, now: u64, probe: nat, rollover: bool): (r: nat)
    requires Known(recs, armed)
    ensures r <= |armed|
  {
    SkipEqual(recs, armed, if rollover then |armed| else LowerBound(recs, armed, Key(now, probe)), now)
  }

  datatype Batch = Batch(recs: Records, armed: seq<nat>, cbs: seq<Callback>)

  /** Between two turns of the re-arming loop: the timers still in `expired` are outside the set and
      keep their callbacks. */
  ghost predicate MidLoop(recs: Records, armed: seq<nat>, expired: seq<nat>) {
    && Sorted(recs, armed)
    && Known(recs, expired)
    && (forall i :: 0 <= i < |expired| ==> expired[i] !in armed && recs[expired[i]].cb.Some?)
    && (forall i, j :: 0 <= i < j < |expired| ==> expired[i] != expired[j])
  }

  /** One turn: the record and the set after `a` has been handed out. */
  function Rearm(recs: Records, armed: seq<nat>, a: nat, now: u64): (r: (Records, seq<nat>))
    requires Known(recs, armed) && a in recs
  {
    if recs[a].recurring then
      var recs' := recs[a := recs[a].(next := Add64(now, recs[a].ms))];
      assert Known(recs', armed) by {
        forall i | 0 <= i < |armed| ensures armed[i] in recs' {}
      }
      (recs', Insert(recs', armed, a).0)
    else
      (recs[a := recs[a].(cb := None)], armed)
  }

  lemma RearmStep(recs: Records, armed: seq<nat>, expired: seq<nat>, now: u64)
    requires MidLoop(recs, armed, expired) && expired != []
    ensures MidLoop(Rearm(recs, armed, expired[0], now).0, Rearm(recs, armed, expired[0], now).1, expired[1..])
    ensures forall b :: b in Rearm(recs, armed, expired[0], now).1
                        <==> b in armed || (b == expired[0] && recs[b].recurring)
  {
    var a := expired[0];
    var r := Rearm(recs, armed, a, now);
    OutsideRewrite(recs, armed, a, r.0[a]);
    if recs[a].recurring {
      InsertSorted(r.0, armed, a);
    }
    forall i | 0 <= i < |expired[1..]|
      ensures expired[1..][i] == expired[i + 1] && expired[i + 1] != a && r.0[expired[i + 1]] == recs[expired[i + 1]]
    {}
  }

  function RearmAll(recs: Records, armed: seq<nat>, expired: seq<nat>, now: u64): (r: Batch)
    requires MidLoop(recs, armed, expired)
    decreases |expired|
  {
    if expired == [] then Batch(recs, armed, [])
    else
      RearmStep(recs, armed, expired, now);
      var one := Rearm(recs, armed, expired[0], now);
      var rest := RearmAll(one.0, one.1, expired[1..], now);
      rest.(cbs := [recs[expired[0]].cb.value] + rest.cbs)
  }

  /** A split of the set is a legal start of the re-arming loop. */
  lemma SplitIsMidLoop(q: Queue, n: nat)
    requires Inv(q) && n <= |q.armed|
    ensures MidLoop(q.recs, q.armed[n..], q.armed[..n])
  {
    forall i | 0 <= i < n ensures q.armed[i] in q.armed && q.armed[i] !in q.armed[n..] {}
  }

  /** `TimeManager::listExpiredCb` for the clock reading `now` taken at its start. */
  function Expire(q: Queue, now: u64, probe: nat): (r: (Queue, seq<Callback>))
    requires Inv(q)
  {
    if q.armed == [] then (q, [])
    else
      var rollover := Rollover(q.prev, now);
      if !rollover && q.recs[q.armed[0]].next > now then (q.(prev := now), [])
      else
        var n := ExpiredCount(q.recs, q.armed, now, probe, rollover);
        SplitIsMidLoop(q, n);
        var b := RearmAll(q.recs, q.armed[n..], q.armed[..n], now);
        (Queue(b.recs, b.armed, q.tickled, now), b.cbs)
  }

  // ---------------------------------------------------------------- set integrity

  lemma CancelIntegrity(q: Queue, a: nat)
    requires Inv(q) && a in q.recs
    ensures Inv(Cancel(q, a).0)
    ensures Cancel(q, a).1 <==> a in q.armed
    ensures forall b :: b in Cancel(q, a).0.armed <==> b in q.armed && b != a
    ensures forall b :: b in q.recs && b != a ==> Cancel(q, a).0.recs[b] == q.recs[b]
  {
    if q.recs[a].cb.Some? {
      FindLocates(q.recs, q.armed, a);
      var i := Find(q.recs, q.armed, a);
      EraseSorted(q.recs, q.armed, i);
      OutsideRewrite(q.recs, Erase(q.armed, i), a, q.recs[a].(cb := None));
    }
  }

  lemma RefreshIntegrity(q: Queue, a: nat, now: u64)
    requires Inv(q) && a in q.recs
    ensures Inv(Refresh(q, a, now).0)
    ensures Refresh(q, a, now).1 <==> a in q.armed
    ensures forall b :: b in Refresh(q, a, now).0.armed <==> b in q.armed
    ensures Refresh(q, a, now).0.tickled == q.tickled && (a !in q.armed ==> Refresh(q, a, now).0 == q)
    ensures Refresh(q, a, now).0.recs
            == if a in q.armed then q.recs[a := q.recs[a].(next := Add64(now, q.recs[a].ms))] else q.recs
  {
    if q.recs[a].cb.Some? {
      FindLocates(q.recs, q.armed, a);
      var i := Find(q.recs, q.armed, a);
      EraseSorted(q.recs, q.armed, i);
      var recs := q.recs[a := q.recs[a].(next := Add64(now, q.recs[a].ms))];
      OutsideRewrite(q.recs, Erase(q.armed, i), a, recs[a]);
      InsertSorted(recs, Erase(q.armed, i), a);
    }
  }

  /** Arming puts the timer in the set, and asks for a wake-up exactly when the set's first element is
      then this timer and no wake-up is pending. */
  lemma ArmIntegrity(q: Queue, a: nat)
    requires Sorted(q.recs, q.armed) && a in q.recs && a !in q.armed
    ensures Sorted(q.recs, Arm(q, a).0.armed)
    ensures forall b :: b in Arm(q, a).0.armed <==> b in q.armed || b == a
    ensures Arm(q, a).1 <==> !q.tickled && forall b :: b in q.armed ==> Less(KeyOf(q.recs, a), KeyOf(q.recs, b))
    ensures Arm(q, a).0.tickled <==> q.tickled || Arm(q, a).1
  {
    InsertSorted(q.recs, q.armed, a);
    var ins := Insert(q.recs, q.armed, a);
    if ins.1 == 0 {
      forall b | b in q.armed ensures Less(KeyOf(q.recs, a), KeyOf(q.recs, b)) {
        var j :| 0 <= j < |ins.0| && ins.0[j] == b;
        assert j > 0;
      }
    } else {
      assert q.armed[0] in q.armed && Less(KeyOf(q.recs, q.armed[0]), KeyOf(q.recs, a));
    }
  }

  /** The queue in the middle of `reset`: the timer is out of the set and has its new key. */
  ghost function Rekeyed(q: Queue, a: nat, ms: u64, fromNow: bool, now: u64): Queue
    requires Inv(q) && a in q.armed
  {
    assert a in q.recs;
    FindLocates(q.recs, q.armed, a);
    var start := if fromNow then now else Sub64(q.recs[a].next, q.recs[a].ms);
    q.(recs := q.recs[a := q.recs[a].(ms := ms, next := Add64(start, ms))],
       armed := Erase(q.armed, Find(q.recs, q.armed, a)))
  }

  /** A `reset` that changes anything is an arming of the re-keyed timer. */
  lemma ResetIsArm(q: Queue, a: nat, ms: u64, fromNow: bool, now: u64)
    requires Inv(q) && a in q.recs && a in q.armed && (ms != q.recs[a].ms || fromNow)
    ensures var q1 := Rekeyed(q, a, ms, fromNow, now);
            && Sorted(q1.recs, q1.armed) && q1.tickled == q.tickled
            && (forall b :: b in q1.armed <==> b in q.armed && b != a)
            && Reset(q, a, ms, fromNow, now) == (Arm(q1, a).0, true, Arm(q1, a).1)
  {
    FindLocates(q.recs, q.armed, a);
    var i := Find(q.recs, q.armed, a);
    EraseSorted(q.recs, q.armed, i);
    OutsideRewrite(q.recs, Erase(q.armed, i), a, Rekeyed(q, a, ms, fromNow, now).recs[a]);
  }

  lemma ResetIntegrity(q: Queue, a: nat, ms: u64, fromNow: bool, now: u64)
    requires Inv(q) && a in q.recs
    ensures Inv(Reset(q, a, ms, fromNow, now).0)
    ensures Reset(q, a, ms, fromNow, now).1 <==> a in q.armed || (ms == q.recs[a].ms && !fromNow)
    ensures forall b :: b in Reset(q, a, ms, fromNow, now).0.armed <==> b in q.armed
    ensures Reset(q, a, ms, fromNow, now).2 ==> !q.tickled
    ensures Reset(q, a, ms, fromNow, now).0.tickled <==> q.tickled || Reset(q, a, ms, fromNow, now).2
    ensures a !in q.armed || (ms == q.recs[a].ms && !fromNow) ==> Reset(q, a, ms, fromNow, now).0 == q
    ensures var start := if fromNow then now else Sub64(q.recs[a].next, q.recs[a].ms);
            Reset(q, a, ms, fromNow, now).0.recs
            == if a in q.armed && (ms != q.recs[a].ms || fromNow)
               then q.recs[a := q.recs[a].(ms := ms, next := Add64(start, ms))] else q.recs
  {
    if a in q.armed && (ms != q.recs[a].ms || fromNow) {
      ResetIsArm(q, a, ms, fromNow, now);
      ArmIntegrity(Rekeyed(q, a, ms, fromNow, now), a);
    }
  }

  lemma AddIntegrity(q: Queue, a: nat, born: u64, ms: u64, cb: Callback, recurring: bool)
    requires Inv(q) && a !in q.recs
    ensures Inv(Add(q, a, born, ms, cb, recurring).0)
    ensures forall b :: b in Add(q, a, born, ms, cb, recurring).0.armed <==> b in q.armed || b == a
    ensures Add(q, a, born, ms, cb, recurring).0.recs == q.recs[a := TimerRec(Add64(born, ms), ms, recurring, Some(cb))]
  {
    var r := TimerRec(Add64(born, ms), ms, recurring, Some(cb));
    assert a !in q.armed;
    OutsideRewrite(q.recs, q.armed, a, r);
    ArmIntegrity(q.(recs := q.recs[a := r]), a);
  }

  // ---------------------------------------------------------------- exact expiry

  /** The re-arming loop as one rewrite: which timers are in the set afterwards, what every record is,
      and that the callbacks come out one per expired timer, in order. */
  lemma {:induction false} RearmAllExact(recs: Records, armed: seq<nat>, expired: seq<nat>, now: u64)
    requires MidLoop(recs, armed, expired)
    ensures var b := RearmAll(recs, armed, expired, now);
            && Sorted(b.recs, b.armed)
            && (forall a :: a in b.armed <==> a in armed || (a in expired && a in recs && recs[a].recurring))
            && b.recs.Keys == recs.Keys
            && (forall a :: a in recs ==> b.recs[a] == Outcome(recs[a], a in expired, now))
            && |b.cbs| == |expired|
            && (forall i :: 0 <= i < |expired| ==> b.cbs[i] == recs[expired[i]].cb.value)
    decreases |expired|
  {
    if expired != [] {
      var a := expired[0];
      var one := Rearm(recs, armed, a, now);
      RearmStep(recs, armed, expired, now);
      RearmAllExact(one.0, one.1, expired[1..], now);
      forall x ensures x in expired <==> x == a || x in expired[1..] {
        assert expired == [a] + expired[1..];
      }
      assert a !in expired[1..];
      assert recs.Keys == one.0.Keys;
    }
  }

  /** What expiry makes of one record. */
  function Outcome(t: TimerRec, expired: bool, now: u64): TimerRec {
    if !expired then t
    else if t.recurring then t.(next := Add64(now, t.ms))
    else t.(cb := None)
  }

  /** The timers that are due: all of them after a rollover, else those whose deadline has come. */
  ghost predicate Due(q: Queue, now: u64, a: nat) {
    a in q.armed && a in q.recs && (Rollover(q.prev, now) || q.recs[a].next <= now)
  }

  /** The elements taken are exactly the due ones, whatever the address of the probe timer. */
  lemma ExpiredPrefixIsDue(q: Queue, now: u64, probe: nat)
    requires Inv(q)
    ensures var n := ExpiredCount(q.recs, q.armed, now, probe, Rollover(q.prev, now));
            forall i :: 0 <= i < |q.armed| ==> (i < n <==> Due(q, now, q.armed[i]))
  {
    var roll := Rollover(q.prev, now);
    var n := ExpiredCount(q.recs, q.armed, now, probe, roll);
    if !roll {
      var l := LowerBound(q.recs, q.armed, Key(now, probe));
      forall i | 0 <= i < |q.armed| ensures i < n <==> q.recs[q.armed[i]].next <= now {
        if l <= i && n <= i && n < |q.armed| {
          assert !Less(KeyOf(q.recs, q.armed[l]), Key(now, probe));
          assert q.recs[q.armed[n]].next > now;
        }
      }
    }
  }

  /** Exact expiry: the due timers leave the set, each hands out its callback once, in the set's order;
      the recurring ones come back keyed to `now + ms`, the others lose their callback, and every other
      timer is untouched. */
  lemma ExpireExact(q: Queue, now: u64, probe: nat)
    requires Inv(q)
    ensures Inv(Expire(q, now, probe).0)
    ensures var (q', cbs) := Expire(q, now, probe);
            && q'.recs.Keys == q.recs.Keys
            && (forall a :: a in q.recs ==> q'.recs[a] == Outcome(q.recs[a], Due(q, now, a), now))
            && (forall a :: a in q'.armed <==> a in q.armed && (Due(q, now, a) ==> q.recs[a].recurring))
            && q'.tickled == q.tickled
            && |cbs| <= |q.armed|
            && (forall i :: 0 <= i < |q.armed| ==> (i < |cbs| <==> Due(q, now, q.armed[i])))
            && (forall i :: 0 <= i < |cbs| ==> Some(cbs[i]) == q.recs[q.armed[i]].cb)
  {
    var roll := Rollover(q.prev, now);
    var (q', cbs) := Expire(q, now, probe);
    if q.armed != [] {
      if !roll && q.recs[q.armed[0]].next > now {
        forall i | 0 <= i < |q.armed| ensures !Due(q, now, q.armed[i]) {
          assert i > 0 ==> Less(KeyOf(q.recs, q.armed[0]), KeyOf(q.recs, q.armed[i]));
        }
        assert forall a :: a in q.armed ==> !Due(q, now, a);
      } else {
        var n := ExpiredCount(q.recs, q.armed, now, probe, roll);
        SplitIsMidLoop(q, n);
        ExpiredPrefixIsDue(q, now, probe);
        RearmAllExact(q.recs, q.armed[n..], q.armed[..n], now);
        forall a | a in q.recs ensures a in q.armed[..n] <==> Due(q, now, a) {}
        forall a ensures a in q.armed[n..] <==> a in q.armed && !Due(q, now, a) {}
      }
    }
  }

  /** The address of the probe timer has no influence at all. */
  lemma ProbeIrrelevant(q: Queue, now: u64, p1: nat, p2: nat)
    requires Inv(q)
    ensures Expire(q, now, p1) == Expire(q, now, p2)
  {
    ExpiredPrefixIsDue(q, now, p1);
    ExpiredPrefixIsDue(q, now, p2);
    var roll := Rollover(q.prev, now);
    var n1, n2 := ExpiredCount(q.recs, q.armed, now, p1, roll), ExpiredCount(q.recs, q.armed, now, p2, roll);
    var i := if n1 < n2 then n1 else n2;
    assert i < |q.armed| ==> (i < n1 <==> Due(q, now, q.armed[i]));
  }

  /** When the clock counts as rolled back: it must have gone back, and by more than an hour unless
      the previous reading was itself within the first hour (the subtraction wraps there). */
  lemma RolloverExactly(prev: u64, now: u64)
    ensures Rollover(prev, now) <==> now < prev && (prev < HOUR_MS || now < prev - HOUR_MS)
  {
    if prev < HOUR_MS {
      assert Sub64(prev, HOUR_MS) == prev - HOUR_MS + U64;
    }
  }
}
