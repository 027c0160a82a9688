/** The active and idle counters as they are: plain integers, changed by worker threads outside any lock.
    An increment is a load and a store, and so is a decrement. */
module Counters {
  import opened Sums

  const WORD: int := 0x1_0000_0000_0000_0000

  /** Where a worker stands between `++` and `--`; a loaded value is in its register. */
  datatype Phase = Out | Rising(v: int) | In | Falling(v: int)

  datatype Counter = Counter(value: int, workers: seq<Phase>)

  datatype Half = Load(i: nat) | Store(i: nat)

  predicate Can(s: Counter, h: Half) {
    match h
    case Load(i) => i < |s.workers| && (s.workers[i].Out? || s.workers[i].In?)
    case Store(i) => i < |s.workers| && (s.workers[i].Rising? || s.workers[i].Falling?)
  }

  function Do(s: Counter, h: Half): Counter
    requires Can(s, h)
  {
    match h
    case Load(i) => s.(workers := s.workers[i := if s.workers[i].Out? then Rising(s.value) else Falling(s.value)])
    case Store(i) =>
      if s.workers[i].Rising? then Counter((s.workers[i].v + 1) % WORD, s.workers[i := In])
      else Counter((s.workers[i].v - 1) % WORD, s.workers[i := Out])
  }

  /** A worker is inside from the store of its increment to the store of its decrement. */
  function IsInside(): Phase -> int { (p: Phase) => if p.In? || p.Falling? then 1 else 0 }

  function Inside(s: Counter): int { Sum(s.workers, IsInside()) }

  /** By how much the counter is off. */
  function Drift(s: Counter): int { (s.value - Inside(s)) % WORD }

  predicate Sound(s: Counter) {
    && 0 <= s.value < WORD && |s.workers| < WORD
    && forall i :: 0 <= i < |s.workers| && (s.workers[i].Rising? || s.workers[i].Falling?) ==> 0 <= s.workers[i].v < WORD
  }

  /** What a store overwrites: the changes since its load. */
  function Slip(s: Counter, h: Half): int
    requires Can(s, h)
  {
    if h.Store? then s.workers[h.i].v - s.value else 0
  }

  lemma StoreDrifts(v: int, value: int, inside: int, change: int)
    ensures ((v + change) % WORD - (inside + change)) % WORD == ((value - inside) % WORD + (v - value)) % WORD
  {
    ModTwice(v + change, inside + change);
    ModFirst(value - inside, v - value);
    assert (v + change) - (inside + change) == value - inside + (v - value);
  }

  /** A half step keeps the counter right if and only if it loses nothing. */
  lemma StepDrifts(s: Counter, h: Half)
    requires Sound(s) && Can(s, h)
    ensures Sound(Do(s, h))
    ensures Drift(Do(s, h)) == (Drift(s) + Slip(s, h)) % WORD
    ensures Drift(Do(s, h)) == Drift(s) <==> Slip(s, h) == 0
  {
    var s' := Do(s, h);
    SumUpdate(s.workers, h.i, s'.workers[h.i], IsInside());
    var slip := Slip(s, h);
    var change := if h.Load? then 0 else if s.workers[h.i].Rising? then 1 else -1;
    assert Inside(s') == Inside(s) + change;
    if h.Store? {
      hide Inside, IsInside;
      StoreDrifts(s.workers[h.i].v, s.value, Inside(s), change);
    }
    NoWrap(Drift(s), slip);
  }

  lemma ModTwice(a: int, b: int)
    ensures (a % WORD - b) % WORD == (a - b) % WORD
  {
    var q := a / WORD;
    assert a - b == (a % WORD - b) + q * WORD;
    AddMultiple(a % WORD - b, q);
  }

  lemma ModFirst(a: int, b: int)
    ensures (a % WORD + b) % WORD == (a + b) % WORD
  {
    var q := a / WORD;
    assert a + b == (a % WORD + b) + q * WORD;
    AddMultiple(a % WORD + b, q);
  }

  lemma AddMultiple(a: int, q: int)
    ensures (a + q * WORD) % WORD == a % WORD
  {
    var r := a % WORD;
    assert a + q * WORD == (a / WORD + q) * WORD + r;
  }

  lemma NoWrap(d: int, slip: int)
    requires 0 <= d < WORD && -WORD < slip < WORD
    ensures (d + slip) % WORD == d <==> slip == 0
  {}

  ghost function Run(s: Counter, hs: seq<Half>): Counter
    decreases |hs|
  {
    if hs == [] then s else if Can(s, hs[0]) then Run(Do(s, hs[0]), hs[1..]) else Run(s, hs[1..])
  }

  ghost function Slips(s: Counter, hs: seq<Half>): int
    decreases |hs|
  {
    if hs == [] then 0
    else if Can(s, hs[0]) then Slip(s, hs[0]) + Slips(Do(s, hs[0]), hs[1..])
    else Slips(s, hs[1..])
  }

  lemma RightMeansInside(s: Counter)
    requires Sound(s)
    ensures s.value == Inside(s) <==> Drift(s) == 0
  {
    InsideBounds(s.workers);
  }

  lemma {:induction false} InsideBounds(ws: seq<Phase>)
    ensures 0 <= Sum(ws, IsInside()) <= |ws|
  {
    if ws != [] {
      InsideBounds(ws[1..]);
    }
  }

  /** Over every run the counter is off by exactly what stores have overwritten ... */
  lemma {:induction false} RunDrifts(s: Counter, hs: seq<Half>)
    requires Sound(s)
    ensures Sound(Run(s, hs)) && Drift(Run(s, hs)) == (Drift(s) + Slips(s, hs)) % WORD
    decreases |hs|
  {
    if hs != [] {
      if Can(s, hs[0]) {
        StepDrifts(s, hs[0]);
        RunDrifts(Do(s, hs[0]), hs[1..]);
        ModFirst(Drift(s) + Slip(s, hs[0]), Slips(Do(s, hs[0]), hs[1..]));
      } else {
        RunDrifts(s, hs[1..]);
      }
    }
  }

  /** ... so, from a right start, it is the number of workers inside if and only if that cancels out; it does
      when each store finds the value that it loaded, as with atomic increments. */
  lemma RightExactly(s: Counter, hs: seq<Half>)
    requires Sound(s) && s.value == Inside(s)
    ensures var s' := Run(s, hs); s'.value == Inside(s') <==> Slips(s, hs) % WORD == 0
  {
    RunDrifts(s, hs);
    RightMeansInside(s);
    RightMeansInside(Run(s, hs));
    hide Sound, Inside, Run, Slips;
    ModFirst(Drift(s), Slips(s, hs));
  }

  /** Two workers whose increments overlap: one is lost. When the first of them leaves, the counter is what
      it was before, while the other is still inside: with one fiber running, `stopping` reads zero. */
  lemma LostIncrement(s: Counter, i: nat, j: nat)
    requires Sound(s) && i < |s.workers| && j < |s.workers| && i != j && s.workers[i].Out? && s.workers[j].Out?
    ensures var s' := Run(s, [Load(i), Load(j), Store(i), Store(j), Load(i), Store(i)]);
            s'.value == s.value && Inside(s') == Inside(s) + 1 && s'.workers == s.workers[j := In]
  {
    var all := [Load(i), Load(j), Store(i), Store(j), Load(i), Store(i)];
    var s1, s2, s3 := BothRise(s, i, j);
    var s4, s5, s6 := OneFalls(s, s3, i, j);
    SumUpdate(s.workers, j, In, IsInside());
    hide Do, Can, Sound, Sum;
    RunOne(s, all);
    RunOne(s1, all[1..]);
    RunOne(s2, all[2..]);
    RunOne(s3, all[3..]);
    RunOne(s4, all[4..]);
    RunOne(s5, all[5..]);
    assert all[6..] == [];
  }

  /** Both have loaded the same value, and the first has stored it, one higher. */
  lemma BothRise(s: Counter, i: nat, j: nat) returns (s1: Counter, s2: Counter, s3: Counter)
    requires i < |s.workers| && j < |s.workers| && i != j && s.workers[i].Out? && s.workers[j].Out?
    ensures Can(s, Load(i)) && s1 == Do(s, Load(i)) && Can(s1, Load(j)) && s2 == Do(s1, Load(j))
    ensures Can(s2, Store(i)) && s3 == Do(s2, Store(i))
    ensures s3 == Counter((s.value + 1) % WORD, s.workers[i := In][j := Rising(s.value)])
  {
    s1 := Do(s, Load(i));
    s2 := Do(s1, Load(j));
    s3 := Do(s2, Store(i));
    assert s3.workers == s.workers[i := In][j := Rising(s.value)];
  }

  /** The second stores the same, and the first counts itself out again. */
  lemma OneFalls(s: Counter, s3: Counter, i: nat, j: nat) returns (s4: Counter, s5: Counter, s6: Counter)
    requires 0 <= s.value < WORD && i < |s.workers| && j < |s.workers| && i != j && s.workers[i].Out?
    requires s3 == Counter((s.value + 1) % WORD, s.workers[i := In][j := Rising(s.value)])
    ensures Can(s3, Store(j)) && s4 == Do(s3, Store(j)) && Can(s4, Load(i)) && s5 == Do(s4, Load(i))
    ensures Can(s5, Store(i)) && s6 == Do(s5, Store(i))
    ensures s6 == Counter(s.value, s.workers[j := In])
  {
    s4 := Do(s3, Store(j));
    s5 := Do(s4, Load(i));
    s6 := Do(s5, Store(i));
    assert s6.workers == s.workers[j := In];
    ModTwice(s.value + 1, 1);
  }

  lemma RunOne(s: Counter, hs: seq<Half>)
    requires hs != [] && Can(s, hs[0])
    ensures Run(s, hs) == Run(Do(s, hs[0]), hs[1..])
  {}
}
