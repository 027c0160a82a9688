/** How long the idle loop waits, and how long the hooked sleeps sleep: the integer conversions between a
    timer queue in 64-bit milliseconds and calls that take an `int`. */
module IdleWait {
  import opened TimerSpec
  import TR = TimerRuns

  const NEVER: u64 := U64 - 1
  const MAX_TIMEOUT: int := 3000

  /** `(int)x`. */
  function ToInt(x: u64): int {
    var low := x % 0x1_0000_0000;
    if low < 0x8000_0000 then low else low - 0x1_0000_0000
  }

  /** One evaluation of the clamp in the wait loop. */
  function Clamp(next: u64): u64 {
    if next != NEVER then (if ToInt(next) > MAX_TIMEOUT then MAX_TIMEOUT else next) else MAX_TIMEOUT
  }

  /** The last argument of `epoll_wait`; a negative one waits without limit. */
  function Wait(next: u64): int { ToInt(Clamp(next)) }

  /** What makes the cast harmless. */
  predicate Fits(next: u64) { next == NEVER || next % 0x1_0000_0000 < 0x8000_0000 }

  /** The wait is bounded, and not longer than the remaining time, exactly when the cast is harmless;
      otherwise it has no limit at all. */
  lemma WaitBounded(next: u64)
    ensures Fits(next) <==> 0 <= Wait(next)
    ensures Fits(next) ==> Wait(next) <= MAX_TIMEOUT && Wait(next) <= next
    ensures next < 0x8000_0000 ==> Wait(next) == if next > MAX_TIMEOUT then MAX_TIMEOUT else next
  {}

  /** Three weeks and a half ahead of the only deadline, the sleeper no longer has a limit. */
  lemma FarDeadlineHasNoLimit(q: Queue, now: u64)
    requires Inv(q) && q.armed != [] && q.recs[q.armed[0]].next == now + 0x8000_0000
    ensures Wait(GetNext(q, now).1) < 0
  {}

  /** The `do`-`while` around `epoll_wait`, interrupted `eintr` times: the variable is clamped again each
      time, and every call gets the same argument. */
  method WaitLoop(next: u64, eintr: nat) returns (args: seq<int>)
    ensures |args| == eintr + 1 && forall k :: 0 <= k <= eintr ==> args[k] == Wait(next)
  {
    args := [];
    var nextTimeout: u64 := next;
    var left := eintr;
    while true
      invariant Wait(nextTimeout) == Wait(next) && (nextTimeout == next || nextTimeout == Clamp(next))
      invariant |args| + left == eintr
      invariant forall k :: 0 <= k < |args| ==> args[k] == Wait(next)
      decreases left
    {
      if nextTimeout != NEVER {
        nextTimeout := if ToInt(nextTimeout) > MAX_TIMEOUT then MAX_TIMEOUT else nextTimeout;
      } else {
        nextTimeout := MAX_TIMEOUT;
      }
      args := args + [ToInt(nextTimeout)];
      if left == 0 {
        break;
      }
      left := left - 1;
    }
  }

  /** `getNextTimer` followed by the wait: the sleeper is back by the front deadline, hence by every armed
      one, unless that has passed already, and then it does not wait. */
  lemma BackByTheDeadline(q: Queue, now: u64)
    requires Inv(q) && Fits(GetNext(q, now).1)
    ensures forall a :: a in q.armed ==>
              a in q.recs && (now + Wait(GetNext(q, now).1) <= q.recs[a].next || Wait(GetNext(q, now).1) == 0)
    ensures q.armed == [] ==> Wait(GetNext(q, now).1) == MAX_TIMEOUT
  {
    WaitBounded(GetNext(q, now).1);
    forall a | a in q.armed ensures a in q.recs && q.recs[q.armed[0]].next <= q.recs[a].next {
      var k :| 0 <= k < |q.armed| && q.armed[k] == a;
    }
  }

  predicate NoGetNext(ops: seq<TR.Op>) {
    forall k :: 0 <= k < |ops| ==> !ops[k].DoGetNext?
  }

  lemma {:induction false} SeenStays(w: TR.World, ops: seq<TR.Op>)
    requires TR.RunInv(w) && NoGetNext(ops)
    ensures TR.Run(w, ops).seen == w.seen
    decreases |ops|
  {
    if ops != [] {
      if TR.Enabled(w, ops[0]) {
        TR.StepKeepsInv(w, ops[0]);
        SeenStays(TR.Apply(w, ops[0]), ops[1..]);
      } else {
        SeenStays(w, ops[1..]);
      }
    }
  }

  /** Over whole runs: a worker asks for the next deadline and waits; other threads then add, cancel,
      refresh, reset and expire timers. As long as nobody has written to the wake-up pipe on a new
      front's behalf, the worker is back by every deadline armed by then, later ones included. */
  lemma NeverOversleeps(w: TR.World, ops: seq<TR.Op>)
    requires TR.RunInv(w) && NoGetNext(ops) && Fits(GetNext(w.q, w.clock).1)
    ensures var asleep := TR.ApplyGetNext(w); var wait := Wait(GetNext(w.q, w.clock).1);
            && TR.RunInv(asleep)
            && var w' := TR.Run(asleep, ops);
               w'.Clean() && w'.notified == 0 ==>
                 forall a :: a in w'.q.armed && a in w'.q.recs ==> w.clock + wait <= w'.q.recs[a].next || wait == 0
  {
    TR.StepKeepsInv(w, TR.DoGetNext);
    var asleep := TR.ApplyGetNext(w);
    SeenStays(asleep, ops);
    WaitBounded(GetNext(w.q, w.clock).1);
  }

  // ---------------------------------------------------------------- the hooked sleeps

  /** `seconds * 1000` in unsigned 32-bit arithmetic. */
  function SleepMs(seconds: nat): u64
    requires seconds < 0x1_0000_0000
  {
    seconds * 1000 % 0x1_0000_0000
  }

  /** `sleep` arms its timer with the whole time exactly up to 4294967 seconds, and with less beyond. */
  lemma SleepIsWhole(seconds: nat)
    requires seconds < 0x1_0000_0000
    ensures SleepMs(seconds) == seconds * 1000 <==> seconds <= 4294967
    ensures seconds > 4294967 ==> SleepMs(seconds) < seconds * 1000
  {}

  /** `tv_sec * 1000 + tv_nsec / 1000 / 1000`, stored in an `int` and passed on as an unsigned 64-bit
      number. */
  function NanosleepMs(ms: u64): u64 {
    if ToInt(ms) < 0 then U64 + ToInt(ms) else ToInt(ms)
  }

  /** `nanosleep` arms its timer with the whole time exactly below 2^31 milliseconds; a time whose low
      half is from there on becomes a deadline in the past. */
  lemma NanosleepIsWhole(ms: u64, now: u64)
    requires ms < U64 / 2
    ensures NanosleepMs(ms) == ms <==> ms < 0x8000_0000
    ensures ms % 0x1_0000_0000 >= 0x8000_0000 && now >= 0x8000_0000 ==> Add64(now, NanosleepMs(ms)) < now
  {}
}
