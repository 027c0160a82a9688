/** The scheduler's queue as a value: the scan of `Scheduler::run` and the appends of `schedule`. */
module QueueSpec {
  import opened Common

  /** The entry is bound to another thread. */
  predicate PinnedElsewhere(e: Entry, tid: int) { e.thread != -1 && e.thread != tid }

  predicate Busy(e: Entry, exec: set<FiberId>) { e.content.FiberOf? && e.content.f in exec }

  /** What the scan may take: unpinned or pinned to this thread, and not a fiber in state EXEC. */
  predicate Eligible(e: Entry, tid: int, exec: set<FiberId>) {
    !PinnedElsewhere(e, tid) && !Busy(e, exec)
  }

  /** The scan loop: how many entries it steps over (`|q|` when it takes none), and `tickle_me`. */
  function Scan(q: seq<Entry>, tid: int, exec: set<FiberId>): (r: (nat, bool))
    ensures r.0 <= |q|
  {
    if q == [] then (0, false)
    else if PinnedElsewhere(q[0], tid) then (1 + Scan(q[1..], tid, exec).0, true)
    else if Busy(q[0], exec) then
      var r := Scan(q[1..], tid, exec);
      (1 + r.0, r.1)
    else (0, false)
  }

  /** The scan takes the first eligible entry; it asks for a tickle exactly when an entry pinned
      elsewhere precedes the stopping point. */
  lemma {:induction false} ScanExact(q: seq<Entry>, tid: int, exec: set<FiberId>)
    ensures var r := Scan(q, tid, exec);
            && (forall j :: 0 <= j < r.0 ==> !Eligible(q[j], tid, exec))
            && (r.0 < |q| ==> Eligible(q[r.0], tid, exec))
            && (r.1 <==> exists j :: 0 <= j < r.0 && PinnedElsewhere(q[j], tid))
  {
    if q != [] && !Eligible(q[0], tid, exec) {
      ScanExact(q[1..], tid, exec);
      var r, rest := Scan(q, tid, exec), Scan(q[1..], tid, exec);
      forall j | 0 < j < |q| ensures q[j] == q[1..][j - 1] {}
      if r.1 {
        if !PinnedElsewhere(q[0], tid) {
          var j :| 0 <= j < rest.0 && PinnedElsewhere(q[1..][j], tid);
          assert PinnedElsewhere(q[j + 1], tid);
        }
      }
    }
  }

  /** The queue without its `i`-th entry; the others keep their order. */
  function Remove(q: seq<Entry>, i: nat): seq<Entry>
    requires i < |q|
  {
    q[..i] + q[i + 1..]
  }

  /** `scheduleNoLock`: an empty callable is not queued, but "the queue was empty" is still reported. */
  function ScheduleNoLock(q: seq<Entry>, item: Option<Content>, thread: int): (seq<Entry>, bool) {
    (if item.Some? then q + [Entry(item.value, thread)] else q, q == [])
  }

  /** The batch form of `schedule`. */
  function ScheduleAll(q: seq<Entry>, items: seq<Option<Content>>): (seq<Entry>, bool)
    decreases |items|
  {
    if items == [] then (q, false)
    else
      var one := ScheduleNoLock(q, items[0], -1);
      var rest := ScheduleAll(one.0, items[1..]);
      (rest.0, one.1 || rest.1)
  }

  /** The entries a batch appends. */
  function EntriesOf(items: seq<Option<Content>>): seq<Entry> {
    if items == [] then []
    else (if items[0].Some? then [Entry(items[0].value, -1)] else []) + EntriesOf(items[1..])
  }

  /** A batch appends its non-empty items, unpinned and in order, and reports that the queue was empty
      before it, unless it has no item at all. */
  lemma {:induction false} ScheduleAllExact(q: seq<Entry>, items: seq<Option<Content>>)
    ensures ScheduleAll(q, items) == (q + EntriesOf(items), q == [] && items != [])
    decreases |items|
  {
    if items == [] {
      assert q + [] == q;
    } else {
      var one := ScheduleNoLock(q, items[0], -1);
      ScheduleAllExact(one.0, items[1..]);
      var head := if items[0].Some? then [Entry(items[0].value, -1)] else [];
      assert one.0 == q + head;
      assert (q + head) + EntriesOf(items[1..]) == q + (head + EntriesOf(items[1..]));
    }
  }

  // ---------------------------------------------------------------- first in, first out

  datatype Take = Take(tid: int, number: nat, entry: Entry, exec: set<FiberId>)

  /** A queue whose entries remember their arrival numbers, with the log of what was taken. */
  datatype Line = Line(q: seq<Entry>, numbers: seq<nat>, next: nat, log: seq<Take>)

  datatype Op = Arrive(e: Entry) | Serve(tid: int, exec: set<FiberId>)

  function Apply(l: Line, op: Op): Line
    requires |l.numbers| == |l.q|
  {
    match op
    case Arrive(e) => l.(q := l.q + [e], numbers := l.numbers + [l.next], next := l.next + 1)
    case Serve(tid, exec) =>
      var i := Scan(l.q, tid, exec).0;
      if i == |l.q| then l
      else l.(q := Remove(l.q, i), numbers := l.numbers[..i] + l.numbers[i + 1..],
              log := l.log + [Take(tid, l.numbers[i], l.q[i], exec)])
  }

  /** Arrival order is queue order, and whatever an earlier scan passed over was not eligible for it. */
  ghost predicate LineInv(l: Line) {
    && |l.numbers| == |l.q|
    && (forall i, j :: 0 <= i < j < |l.q| ==> l.numbers[i] < l.numbers[j])
    && (forall i :: 0 <= i < |l.q| ==> l.numbers[i] < l.next)
    && (forall k, i :: 0 <= k < |l.log| && 0 <= i < |l.q| && l.numbers[i] < l.log[k].number ==>
                         !Eligible(l.q[i], l.log[k].tid, l.log[k].exec))
    && (forall k, m :: 0 <= k < m < |l.log| && l.log[m].number < l.log[k].number ==>
                         !Eligible(l.log[m].entry, l.log[k].tid, l.log[k].exec))
    && (forall k :: 0 <= k < |l.log| ==> Eligible(l.log[k].entry, l.log[k].tid, l.log[k].exec) && l.log[k].number < l.next)
  }

  /** Removing one position of an increasing sequence keeps it increasing. */
  lemma RemoveIncreasing(xs: seq<nat>, i: nat)
    requires i < |xs| && forall a, b :: 0 <= a < b < |xs| ==> xs[a] < xs[b]
    ensures var ys := xs[..i] + xs[i + 1..];
            && (forall a, b :: 0 <= a < b < |ys| ==> ys[a] < ys[b])
            && (forall a :: 0 <= a < |ys| ==> ys[a] == xs[if a < i then a else a + 1])
  {}

  lemma ServeKeepsLine(l: Line, tid: int, exec: set<FiberId>)
    requires LineInv(l)
    ensures LineInv(Apply(l, Serve(tid, exec)))
  {
    ScanExact(l.q, tid, exec);
    hide Eligible, Scan;
    var i := Scan(l.q, tid, exec).0;
    if i < |l.q| {
      var l' := Apply(l, Serve(tid, exec));
      RemoveIncreasing(l.numbers, i);
      forall j | 0 <= j < |l'.q| ensures l'.q[j] == l.q[if j < i then j else j + 1] {}
    }
  }

  lemma ApplyKeepsLine(l: Line, op: Op)
    requires LineInv(l)
    ensures LineInv(Apply(l, op))
  {
    match op
    case Arrive(e) =>
    case Serve(tid, exec) => ServeKeepsLine(l, tid, exec);
  }

  ghost function Run(l: Line, ops: seq<Op>): (l': Line)
    requires LineInv(l)
    ensures LineInv(l')
    decreases |ops|
  {
    if ops == [] then l
    else
      ApplyKeepsLine(l, ops[0]);
      Run(Apply(l, ops[0]), ops[1..])
  }

  const EmptyLine: Line := Line([], [], 0, [])

  /** Over every run, each thread serves its entries in arrival order: when it took `k` before `m`
      although `m` had arrived first, then `m` was a fiber in state EXEC when `k` was taken. */
  lemma ServesInOrder(ops: seq<Op>, k: nat, m: nat)
    ensures var l := Run(EmptyLine, ops);
            k < m < |l.log| && l.log[k].tid == l.log[m].tid && l.log[m].number < l.log[k].number
            ==> Busy(l.log[m].entry, l.log[k].exec)
  {
    var l := Run(EmptyLine, ops);
    if k < m < |l.log| && l.log[k].tid == l.log[m].tid && l.log[m].number < l.log[k].number {
      assert !Eligible(l.log[m].entry, l.log[k].tid, l.log[k].exec);
      assert Eligible(l.log[m].entry, l.log[m].tid, l.log[m].exec);
    }
  }
}
