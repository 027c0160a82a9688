/** The file status flags of a hooked socket: what the caller reads, what the kernel holds, and how both
    compare with a descriptor that is not hooked. */
module FdFlags {
  /** A flag word, as the set of its bits: `|` is union, `&` intersection, `& ~` difference. */
  type Flags = set<nat>

  /** Bit 11, 04000 in octal. */
  const O_NONBLOCK: nat := 11

  /** -1, every bit of a 32-bit word. */
  const FAILED: Flags := set b: nat | b < 32

  predicate Nonblock(f: Flags) { O_NONBLOCK in f }

  function WithNonblock(f: Flags, on: bool): Flags {
    if on then f + {O_NONBLOCK} else f - {O_NONBLOCK}
  }

  // ---------------------------------------------------------------- a plain descriptor

  /** `F_SETFL` in the kernel: only the bits in `settable` change. */
  function KernelSet(f: Flags, arg: Flags, settable: Flags): Flags {
    (f - settable) + (arg * settable)
  }

  /** A call on the flags; `ok` is whether the kernel grants it. */
  datatype Call = SetFl(arg: Flags, ok: bool) | Fionbio(on: bool, ok: bool)

  function Plain(f: Flags, c: Call, settable: Flags): Flags {
    match c
    case SetFl(arg, ok) => if ok then KernelSet(f, arg, settable) else f
    case Fionbio(on, ok) => if ok then WithNonblock(f, on) else f
  }

  function PlainAll(f: Flags, cs: seq<Call>, settable: Flags): Flags {
    if cs == [] then f else Plain(PlainAll(f, cs[..|cs| - 1], settable), cs[|cs| - 1], settable)
  }

  // ---------------------------------------------------------------- a hooked descriptor

  /** `FdCtx`, as far as flags go, with the kernel's flags of the descriptor beside it. */
  datatype Ctx = Ctx(isSocket: bool, isClosed: bool, sysNonblock: bool, userNonblock: bool, kernel: Flags)
  {
    predicate Tracked() { isSocket && !isClosed }
  }

  function Hooked(x: Ctx, c: Call, settable: Flags): Ctx {
    match c
    case SetFl(arg, ok) =>
      if !x.Tracked() then x.(kernel := Plain(x.kernel, c, settable))
      else x.(userNonblock := Nonblock(arg),
              kernel := Plain(x.kernel, SetFl(WithNonblock(arg, x.sysNonblock), ok), settable))
    case Fionbio(on, ok) =>
      if !x.Tracked() then x.(kernel := Plain(x.kernel, c, settable))
      else x.(userNonblock := on, kernel := Plain(x.kernel, c, settable))
  }

  function HookedAll(x: Ctx, cs: seq<Call>, settable: Flags): Ctx {
    if cs == [] then x else Hooked(HookedAll(x, cs[..|cs| - 1], settable), cs[|cs| - 1], settable)
  }

  /** What `F_GETFL` tells the caller. */
  function View(x: Ctx): Flags {
    if !x.Tracked() then x.kernel else WithNonblock(x.kernel, x.userNonblock)
  }

  /** `FdCtx::init` on a descriptor whose kernel flags are `f`. */
  function Opened(f: Flags, isSocket: bool): Ctx {
    Ctx(isSocket, false, isSocket, false, if isSocket then WithNonblock(f, true) else f)
  }

  // ---------------------------------------------------------------- comparing the two

  /** The setting of O_NONBLOCK that the last call asked for. */
  function Asked(first: bool, cs: seq<Call>): bool {
    if cs == [] then first
    else match cs[|cs| - 1]
      case SetFl(arg, _) => Nonblock(arg)
      case Fionbio(on, _) => on
  }

  /** The setting that the last granted call asked for. */
  function Granted(first: bool, cs: seq<Call>): bool {
    if cs == [] then first
    else match cs[|cs| - 1]
      case SetFl(arg, ok) => if ok then Nonblock(arg) else Granted(first, cs[..|cs| - 1])
      case Fionbio(on, ok) => if ok then on else Granted(first, cs[..|cs| - 1])
  }

  /** The last granted call, as far as the kernel of a hooked socket is concerned: every F_SETFL arrives
      with O_NONBLOCK added. */
  function KernelNonblock(cs: seq<Call>): bool {
    if cs == [] then true
    else match cs[|cs| - 1]
      case SetFl(_, ok) => ok || KernelNonblock(cs[..|cs| - 1])
      case Fionbio(on, ok) => if ok then on else KernelNonblock(cs[..|cs| - 1])
  }

  lemma BitFacts(f: Flags, g: Flags, settable: Flags, on: bool)
    requires O_NONBLOCK in settable
    ensures Nonblock(WithNonblock(f, on)) == on
    ensures Nonblock(KernelSet(f, g, settable)) == Nonblock(g)
    ensures WithNonblock(KernelSet(f, g, settable), on) == WithNonblock(KernelSet(WithNonblock(f, on), WithNonblock(g, true), settable), on)
    ensures WithNonblock(f, Nonblock(f)) == f
  {}

  /** The flags without O_NONBLOCK. */
  function Others(f: Flags): Flags { f - {O_NONBLOCK} }

  lemma OthersFacts(f: Flags, g: Flags, settable: Flags, on: bool)
    ensures Others(WithNonblock(f, on)) == Others(f)
    ensures Others(KernelSet(f, g, settable)) == KernelSet(Others(f), Others(g), Others(settable))
    ensures (Others(f) == Others(g) && Nonblock(f) == Nonblock(g)) <==> f == g
  {
    if Others(f) == Others(g) && Nonblock(f) == Nonblock(g) {
      forall b: nat ensures b in f <==> b in g {
        assert b in Others(f) <==> b in Others(g);
      }
    }
  }

  lemma {:induction false} PlainBits(f: Flags, cs: seq<Call>, settable: Flags)
    requires O_NONBLOCK in settable
    ensures Nonblock(PlainAll(f, cs, settable)) == Granted(Nonblock(f), cs)
  {
    if cs != [] {
      var before := cs[..|cs| - 1];
      PlainBits(f, before, settable);
      match cs[|cs| - 1]
      case SetFl(arg, _) => BitFacts(PlainAll(f, before, settable), arg, settable, true);
      case Fionbio(on, _) => BitFacts(PlainAll(f, before, settable), {}, settable, on);
    }
  }

  /** A hooked socket after any calls: the caller's setting is the last one asked for, the kernel's the
      last one granted with every F_SETFL counting as "on", the other flags those of a plain
      descriptor. */
  lemma {:induction false} HookedBits(f: Flags, cs: seq<Call>, settable: Flags)
    requires O_NONBLOCK in settable
    ensures var x := HookedAll(Opened(f, true), cs, settable);
            && x.Tracked() && x.sysNonblock
            && x.userNonblock == Asked(false, cs)
            && Nonblock(x.kernel) == KernelNonblock(cs)
            && Others(x.kernel) == Others(PlainAll(f, cs, settable))
  {
    if cs == [] {
      OthersFacts(f, {}, settable, true);
      BitFacts(f, {}, settable, true);
    } else {
      var before := cs[..|cs| - 1];
      HookedBits(f, before, settable);
      var x, p := HookedAll(Opened(f, true), before, settable), PlainAll(f, before, settable);
      hide Others, Nonblock, WithNonblock, KernelSet;
      match cs[|cs| - 1] {
        case SetFl(arg, _) =>
          BitFacts(x.kernel, WithNonblock(arg, true), settable, true);
          BitFacts(arg, {}, settable, true);
          OthersFacts(arg, {}, settable, true);
          OthersFacts(x.kernel, WithNonblock(arg, true), settable, true);
          OthersFacts(p, arg, settable, true);
        case Fionbio(on, _) =>
          BitFacts(x.kernel, {}, settable, on);
          OthersFacts(x.kernel, {}, settable, on);
          OthersFacts(p, {}, settable, on);
      }
    }
  }

  /** Refinement, exactly: the hooked socket reads like the plain one if and only if the last setting
      asked for is the one last granted, counting the setting at creation as asked "off" and granted as
      it was. Only O_NONBLOCK can differ. */
  lemma ReadsLikePlain(f: Flags, cs: seq<Call>, settable: Flags)
    requires O_NONBLOCK in settable
    ensures var x, p := HookedAll(Opened(f, true), cs, settable), PlainAll(f, cs, settable);
            && (View(x) == p <==> Asked(false, cs) == Granted(Nonblock(f), cs))
            && Others(View(x)) == Others(p)
  {
    HookedBits(f, cs, settable);
    PlainBits(f, cs, settable);
    var x, p := HookedAll(Opened(f, true), cs, settable), PlainAll(f, cs, settable);
    hide Others, Nonblock, WithNonblock, PlainAll, HookedAll;
    BitFacts(x.kernel, {}, settable, x.userNonblock);
    OthersFacts(x.kernel, {}, settable, x.userNonblock);
    OthersFacts(View(x), p, settable, true);
  }

  predicate AllGranted(cs: seq<Call>) {
    forall k :: 0 <= k < |cs| ==> cs[k].ok
  }

  /** When the kernel grants every call, the two read alike from the start exactly if the socket was made
      without SOCK_NONBLOCK, and from the first call on in any case. */
  lemma GrantedReadsLikePlain(f: Flags, cs: seq<Call>, settable: Flags)
    requires O_NONBLOCK in settable && AllGranted(cs)
    ensures View(HookedAll(Opened(f, true), cs, settable)) == PlainAll(f, cs, settable) <==> cs != [] || !Nonblock(f)
  {
    ReadsLikePlain(f, cs, settable);
    if cs != [] {
      assert cs[|cs| - 1].ok;
    }
  }

  /** The kernel's O_NONBLOCK, on which `do_io` relies, stays set under F_SETFL alone; in general it is
      set unless the last granted change was a FIONBIO that cleared it. */
  lemma KernelStaysNonblocking(f: Flags, cs: seq<Call>, settable: Flags)
    requires O_NONBLOCK in settable
    ensures var x := HookedAll(Opened(f, true), cs, settable);
            && ((forall k :: 0 <= k < |cs| ==> cs[k].SetFl?) ==> Nonblock(x.kernel))
            && (Nonblock(x.kernel) <==> !(exists k :: ClearedAt(cs, k)))
  {
    HookedBits(f, cs, settable);
    KernelHistory(cs);
    assert (forall k :: 0 <= k < |cs| ==> cs[k].SetFl?) ==> forall k :: !ClearedAt(cs, k);
  }

  /** Call `k` is a granted `FIONBIO` with 0 after which nothing was granted. */
  predicate ClearedAt(cs: seq<Call>, k: int) {
    0 <= k < |cs| && cs[k] == Fionbio(false, true) && forall j :: k < j < |cs| ==> !cs[j].ok
  }

  lemma {:induction false} KernelHistory(cs: seq<Call>)
    ensures KernelNonblock(cs) <==> !(exists k :: ClearedAt(cs, k))
  {
    if cs != [] {
      var n := |cs| - 1;
      KernelHistory(cs[..n]);
      if cs[n].ok {
        assert ClearedAt(cs, n) <==> cs[n] == Fionbio(false, true);
        assert forall k :: ClearedAt(cs, k) ==> k == n;
      } else {
        forall k ensures ClearedAt(cs, k) <==> ClearedAt(cs[..n], k) {
          if ClearedAt(cs[..n], k) {
            assert forall j :: k < j < n ==> cs[..n][j] == cs[j];
          }
        }
      }
    }
  }

  /** After such a FIONBIO the caller's side still counts as blocking, so `do_io` takes the path that
      makes the system call on a descriptor that blocks the whole thread. */
  lemma FionbioDefeatsTheHook(f: Flags, cs: seq<Call>, settable: Flags)
    requires O_NONBLOCK in settable
    ensures var x := HookedAll(Opened(f, true), cs + [Fionbio(false, true)], settable);
            TakesWaitPath(x) && !Nonblock(x.kernel)
  {
    HookedBits(f, cs + [Fionbio(false, true)], settable);
  }

  /** The guards at the head of `do_io`. */
  predicate TakesWaitPath(x: Ctx) { !x.isClosed && x.isSocket && !x.userNonblock }

  // ---------------------------------------------------------------- the calls themselves

  /** A descriptor in the kernel; `settable` are the bits that F_SETFL can change. */
  class File {
    var flags: Flags
    const settable: Flags
    constructor (flags: Flags, settable: Flags)
      ensures this.flags == flags && this.settable == settable
    {
      this.flags, this.settable := flags, settable;
    }

    /** `fcntl_f(fd, F_SETFL, arg)` */
    method SetFl(arg: Flags, ok: bool) returns (rt: Flags)
      modifies this
      ensures flags == Plain(old(flags), Call.SetFl(arg, ok), settable)
      ensures rt == if ok then {} else FAILED
    {
      if ok {
        flags := KernelSet(flags, arg, settable);
        return {};
      }
      return FAILED;
    }

    /** `fcntl_f(fd, F_GETFL)` */
    method GetFl(ok: bool) returns (rt: Flags)
      ensures rt == if ok then flags else FAILED
    {
      rt := if ok then flags else FAILED;
    }

    /** `ioctl_f(d, FIONBIO, arg)` */
    method Fionbio(on: bool, ok: bool) returns (rt: Flags)
      modifies this
      ensures flags == Plain(old(flags), Call.Fionbio(on, ok), settable)
      ensures rt == if ok then {} else FAILED
    {
      if ok {
        flags := WithNonblock(flags, on);
        return {};
      }
      return FAILED;
    }
  }

  class FdCtx {
    const file: File
    var isInit: bool
    var isSocket: bool
    var sysNonblock: bool
    var userNonblock: bool
    var isClosed: bool

    function State(): Ctx
      reads this, file
    {
      Ctx(isSocket, isClosed, sysNonblock, userNonblock, file.flags)
    }

    /** `stat` is what `fstat` says: whether it succeeds and whether the file is a socket; `get` and `set`
        are whether the two calls of `fcntl` are granted. Their results are not looked at: a socket counts as
        non-blocking whatever the kernel says. It is, exactly when it was or both calls are granted; a failed
        F_GETFL reads as -1, which has the bit. */
    constructor (file: File, stat: (bool, bool), get: bool, put: bool)
      requires O_NONBLOCK in file.settable
      modifies file
      ensures this.file == file && isInit == stat.0
      ensures var isSocket, f := stat.0 && stat.1, old(file.flags);
              && State() == Opened(f, isSocket).(kernel := file.flags)
              && file.flags == (if isSocket && get && put then WithNonblock(f, true) else f)
              && (State() == Opened(f, isSocket) <==> isSocket ==> Nonblock(f) || (get && put))
    {
      this.file := file;
      isInit := stat.0;
      isSocket := stat.0 && stat.1;
      sysNonblock, userNonblock, isClosed := false, false, false;
      new;
      if isSocket {
        var flags := file.GetFl(get);
        if O_NONBLOCK !in flags {
          SetAddsNonblock(flags, file.settable);
          var _ := file.SetFl(flags + {O_NONBLOCK}, put);
        } else if get {
          KeepsNonblock(flags);
        }
        sysNonblock := true;
      }
    }

    /** `fcntl(fd, F_SETFL, arg)` */
    method SetFl(arg: Flags, ok: bool) returns (rt: Flags)
      modifies this, file
      ensures State() == Hooked(old(State()), Call.SetFl(arg, ok), file.settable)
      ensures rt == if ok then {} else FAILED
    {
      if isClosed || !isSocket {
        rt := file.SetFl(arg, ok);
        return;
      }
      userNonblock := O_NONBLOCK in arg;
      var a := arg;
      if sysNonblock {
        a := a + {O_NONBLOCK};
      } else {
        a := a - {O_NONBLOCK};
      }
      rt := file.SetFl(a, ok);
    }

    /** `fcntl(fd, F_GETFL)`. A failure passes through only while the caller's side is non-blocking: else
        the -1 loses a bit. */
    method GetFl(ok: bool) returns (rt: Flags)
      ensures ok ==> rt == View(State())
      ensures !ok ==> (rt == FAILED <==> isClosed || !isSocket || userNonblock)
    {
      var arg := file.GetFl(ok);
      if isClosed || !isSocket {
        return arg;
      }
      if userNonblock {
        return arg + {O_NONBLOCK};
      } else {
        return arg - {O_NONBLOCK};
      }
    }

    /** `ioctl(d, FIONBIO, arg)` */
    method Fionbio(arg: int, ok: bool) returns (rt: Flags)
      modifies this, file
      ensures State() == Hooked(old(State()), Call.Fionbio(arg != 0, ok), file.settable)
      ensures rt == if ok then {} else FAILED
    {
      var on := arg != 0;
      if isClosed || !isSocket {
        rt := file.Fionbio(on, ok);
        return;
      }
      userNonblock := on;
      rt := file.Fionbio(on, ok);
    }
  }

  lemma SetAddsNonblock(f: Flags, settable: Flags)
    requires O_NONBLOCK in settable
    ensures KernelSet(f, f + {O_NONBLOCK}, settable) == f + {O_NONBLOCK}
  {}

  lemma KeepsNonblock(f: Flags)
    requires O_NONBLOCK in f
    ensures f + {O_NONBLOCK} == f
  {}
}
