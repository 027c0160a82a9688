/** Values shared by every part of the runtime model: identities, callbacks, the run queue's
    entries, and the sums over sequences by which tokens, bits and counters are counted. */
module Common {
  datatype Option<+T> = None | Some(value: T)

  /** Identity of a fiber. */
  type FiberId = nat

  /** A `std::function<void()>`, by what calling it does.
      `User(n)` is code of the program; `Wake(f)` is the closure that `sleep` binds (it schedules
      fiber `f`); `Timeout(call, k)` is the closure of the `k`-th condition timer that the blocking
      call `call` created. */
  datatype Callback = User(n: nat) | Wake(f: FiberId) | Timeout(call: nat, k: nat)

  /** What a queue entry or an event slot carries: a fiber or a callback, never both. */
  datatype Content = FiberOf(f: FiberId) | CallbackOf(cb: Callback)

  /** One element of the scheduler's queue; `thread == -1` means "not pinned". */
  datatype Entry = Entry(content: Content, thread: int)

  /** How a call of `do_io` ended: ETIMEDOUT, -1 because `addEvent` failed, or with the result of the
      system call. */
  datatype IoResult = TimedOut | Refused | Returned

  lemma Regroup<A>(a: seq<A>, b: seq<A>, c: seq<A>)
    ensures a + (b + c) == a + b + c
  {}
}

/** Sums of a weight over a sequence. */
module Sums {
  function Sum<T>(xs: seq<T>, g: T -> int): int {
    if xs == [] then 0 else g(xs[0]) + Sum(xs[1..], g)
  }

  lemma {:induction false} SumConcat<T>(xs: seq<T>, ys: seq<T>, g: T -> int)
    ensures Sum(xs + ys, g) == Sum(xs, g) + Sum(ys, g)
  {
    if xs == [] {
      assert xs + ys == ys;
    } else {
      SumConcat(xs[1..], ys, g);
      assert (xs + ys)[1..] == xs[1..] + ys;
    }
  }

  lemma SumAppend<T>(xs: seq<T>, x: T, g: T -> int)
    ensures Sum(xs + [x], g) == Sum(xs, g) + g(x)
  {
    SumConcat(xs, [x], g);
    assert Sum([x], g) == g(x) + Sum([], g);
  }

  lemma SumSplit<T>(xs: seq<T>, i: nat, g: T -> int)
    requires i < |xs|
    ensures Sum(xs, g) == Sum(xs[..i], g) + g(xs[i]) + Sum(xs[i + 1..], g)
  {
    assert xs == xs[..i] + [xs[i]] + xs[i + 1..];
    SumConcat(xs[..i] + [xs[i]], xs[i + 1..], g);
    SumAppend(xs[..i], xs[i], g);
  }

  lemma SumUpdate<T>(xs: seq<T>, i: nat, x: T, g: T -> int)
    requires i < |xs|
    ensures Sum(xs[i := x], g) == Sum(xs, g) - g(xs[i]) + g(x)
  {
    SumSplit(xs, i, g);
    SumSplit(xs[i := x], i, g);
    assert xs[i := x][..i] == xs[..i] && xs[i := x][i + 1..] == xs[i + 1..];
  }

  lemma SumRemove<T>(xs: seq<T>, i: nat, g: T -> int)
    requires i < |xs|
    ensures Sum(xs[..i] + xs[i + 1..], g) == Sum(xs, g) - g(xs[i])
  {
    SumSplit(xs, i, g);
    SumConcat(xs[..i], xs[i + 1..], g);
  }

  lemma SumInsert<T>(xs: seq<T>, i: nat, x: T, g: T -> int)
    requires i <= |xs|
    ensures Sum(xs[..i] + [x] + xs[i..], g) == Sum(xs, g) + g(x)
  {
    SumConcat(xs[..i] + [x], xs[i..], g);
    SumAppend(xs[..i], x, g);
    SumConcat(xs[..i], xs[i..], g);
    assert xs == xs[..i] + xs[i..];
  }

  /** Two weights that agree on the elements have the same sum. */
  lemma {:induction false} SumCongruent<T>(xs: seq<T>, g: T -> int, h: T -> int)
    requires forall i :: 0 <= i < |xs| ==> g(xs[i]) == h(xs[i])
    ensures Sum(xs, g) == Sum(xs, h)
  {
    if xs != [] {
      forall i | 0 <= i < |xs[1..]| ensures g(xs[1..][i]) == h(xs[1..][i]) {
        assert xs[1..][i] == xs[i + 1];
      }
      SumCongruent(xs[1..], g, h);
    }
  }

  lemma {:induction false} SumNonNegative<T>(xs: seq<T>, g: T -> int)
    requires forall i :: 0 <= i < |xs| ==> g(xs[i]) >= 0
    ensures Sum(xs, g) >= 0
  {
    if xs != [] {
      forall i | 0 <= i < |xs[1..]| ensures g(xs[1..][i]) >= 0 {
        assert xs[1..][i] == xs[i + 1];
      }
      SumNonNegative(xs[1..], g);
    }
  }

  /** A non-negative weight at one index is bounded by the sum. */
  lemma SumAtLeast<T>(xs: seq<T>, i: nat, g: T -> int)
    requires i < |xs|
    requires forall x :: x in xs ==> g(x) >= 0
    ensures Sum(xs, g) >= g(xs[i])
  {
    SumSplit(xs, i, g);
    SumNonNegative(xs[..i], g);
    SumNonNegative(xs[i + 1..], g);
  }

  lemma {:induction false} SumZero<T>(xs: seq<T>, g: T -> int)
    requires forall i :: 0 <= i < |xs| ==> g(xs[i]) == 0
    ensures Sum(xs, g) == 0
  {
    if xs != [] {
      forall i | 0 <= i < |xs[1..]| ensures g(xs[1..][i]) == 0 {
        assert xs[1..][i] == xs[i + 1];
      }
      SumZero(xs[1..], g);
    }
  }
}
