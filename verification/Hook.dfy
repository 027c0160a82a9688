/** The step system runs the program of a blocking call. */
module Hooks {
  import opened Common
  import opened Fleet
  import opened IoProgram
  import opened Runtime
  import opened RuntimeShapes
  import T = TimerSpec
  import E = EventSpec

  /** The step of the program that an action is. */
  function StepOf(s: State, i: nat, a: FiberAct): IoStep
    requires CanFiber(s, i, a) && InDoIo(a)
  {
    match a
    case IoDone => Done
    case IoAgain(_, _) => Again
    case IoAdd(granted) => Add(E.AddEvent(s.p.table, s.calls[MyCall(s, i)].fd, s.calls[MyCall(s, i)].ev, FiberOf(Me(s, i)), granted).ok)
    case IoGiveUp => GiveUp
    case IoPark => Park
    case IoDisarm => Disarm
    case IoReadFlag => ReadFlag(s.calls[MyCall(s, i)].cancelled.Some?)
  }

  /** Inside a call, a fiber moves by the program's steps. */
  ghost predicate Program(s: State, i: nat, a: FiberAct, s': State) {
    && CanFiber(s, i, a) && InDoIo(a) && AtCall(s, i) && Me(s, i) < |s'.p.fl.fibers|
    && Moves(MyCall(s, i), MyPc(s, i), StepOf(s, i, a), s'.p.fl.fibers[Me(s, i)].pc)
  }

  lemma NextIsProgram(s: State, i: nat, a: FiberAct)
    requires CanFiber(s, i, a) && InDoIo(a)
    ensures AtCall(s, i) && Moves(MyCall(s, i), MyPc(s, i), StepOf(s, i, a), NextPc(s, i, a))
  {
    hide E.AddEvent;
  }

  /** A fiber's action in `do_io` is a step of the program ... */
  lemma FibersRunTheProgram(s: State, i: nat, a: FiberAct)
    requires T.Inv(s.p.timers) && E.Inv(s.p.table) && CanFiber(s, i, a) && InDoIo(a)
    ensures Program(s, i, a, DoFiber(s, i, a))
  {
    FiberShape(s, i, a);
    NextIsProgram(s, i, a);
    hide T.Inv, E.Inv, DoFiber, CanFiber, NextPc, StepOf, Moves, CallsAfter, QueueAfter, TableAfter, TimersAfter, Cancelled;
  }

  /** ... a worker's action leaves the fiber where it is or resumes it ... */
  ghost predicate LeftOrResumed(s: State, f: FiberId, s': State) {
    && f < |s.p.fl.fibers| && f < |s'.p.fl.fibers|
    && var pc, pc' := s.p.fl.fibers[f].pc, s'.p.fl.fibers[f].pc;
       pc' == pc || (InCall(pc).Some? && Moves(InCall(pc).value, pc, Resume, pc'))
  }

  lemma WorkersResume(s: State, i: nat, a: WorkerAct, f: FiberId)
    requires SysInv(s) && CanWorker(s, i, a) && f < |s.p.fl.fibers| && InCall(s.p.fl.fibers[f].pc).Some?
    ensures LeftOrResumed(s, f, DoWorker(s, i, a))
  {
    assert T.Inv(s.p.timers);
    WorkerShape(s, i, a);
    if Touched(s, i, a).Some? && Touched(s, i, a).value.0 == f {
      TouchedInCall(s, i, a, f);
    }
    hide SysInv, T.Inv, DoWorker, CanWorker, Touched, WorkerAfter, WorkersQueue, WorkersTable, WorkersTimers, Stopping, InFlight, Moves;
  }

  /** A worker that puts its hand on a fiber inside a call resumes it or marks it. */
  lemma TouchedInCall(s: State, i: nat, a: WorkerAct, f: FiberId)
    requires FleetInv(s.p.fl) && CanWorker(s, i, a) && f < |s.p.fl.fibers| && InCall(s.p.fl.fibers[f].pc).Some?
    requires Touched(s, i, a).Some? && Touched(s, i, a).value.0 == f
    ensures var pc, pc' := s.p.fl.fibers[f].pc, Touched(s, i, a).value.1.pc; pc' == pc || Moves(InCall(pc).value, pc, Resume, pc')
  {
    assert WorkerFits(s.p.fl.workers[i], s.p.fl.fibers) && StateFits(s.p.fl.fibers[f]);
    hide SysInv;
  }

  lemma UsersLeaveFibers(s: State, a: UserAct, f: FiberId)
    requires T.Inv(s.p.timers) && E.Inv(s.p.table) && CanUser(s, a) && f < |s.p.fl.fibers|
    ensures LeftOrResumed(s, f, DoUser(s, a))
  {
    UserShape(s, a);
    hide T.Inv, DoUser, CanUser;
  }

  /** In a call, a fiber's own action is one of `do_io`'s. */
  lemma OnlyDoIo(s: State, i: nat, a: FiberAct)
    requires CanFiber(s, i, a) && InCall(MyPc(s, i)).Some?
    ensures InDoIo(a)
  {}

  /** ... so every action, by anyone, leaves a fiber that is in a call where it is or takes it one step of
      the program further. */
  lemma CallsFollowTheProgram(s: State, a: Action, f: FiberId)
    requires SysInv(s) && Can(s, a) && f < |s.p.fl.fibers| && InCall(s.p.fl.fibers[f].pc).Some?
    ensures var pc, s' := s.p.fl.fibers[f].pc, Do(s, a);
            && f < |s'.p.fl.fibers|
            && (s'.p.fl.fibers[f].pc == pc || exists st :: Moves(InCall(pc).value, pc, st, s'.p.fl.fibers[f].pc))
  {
    match a
    case ByWorker(i, w) => WorkersResume(s, i, w, f); hide SysInv, DoWorker, CanWorker;
    case ByFiber(i, x) =>
      FiberEffects(s, i, x);
      if Me(s, i) == f {
        OnlyDoIo(s, i, x);
        FibersRunTheProgram(s, i, x);
      }
      hide SysInv, DoFiber, CanFiber, StepOf;
    case ByUser(who, u) => UsersLeaveFibers(s, u, f); hide SysInv, DoUser, CanUser;
    case Tick(_) =>
    case Stop =>
  }
}
