/** Runs from the initial state that reach the states in which the runtime falls short. */
module RuntimeWitnesses {
  import opened Common
  import opened Fleet
  import opened Runtime
  import opened RuntimeRuns
  import opened RuntimeTheorems
  import opened RuntimeTimeouts
  import opened RuntimeTables
  import T = TimerSpec
  import E = EventSpec

  // ---------------------------------------------------------------- following a table

  function Actions(act: nat -> Action, n: nat): seq<Action> {
    if n == 0 then [] else Actions(act, n - 1) + [act(n - 1)]
  }

  lemma {:induction false} RunConcat(s: State, acts: seq<Action>, more: seq<Action>)
    requires SysInv(s)
    ensures Run(s, acts + more) == Run(Run(s, acts), more)
    decreases |acts|
  {
    assert T.Inv(s.p.timers) && E.Inv(s.p.table);
    hide SysInv, Do, Can;
    if acts == [] {
      assert acts + more == more;
    } else {
      assert (acts + more)[0] == acts[0] && (acts + more)[1..] == acts[1..] + more;
      if Can(s, acts[0]) {
        DoKeeps(s, acts[0]);
        RunConcat(Do(s, acts[0]), acts[1..], more);
      } else {
        RunConcat(s, acts[1..], more);
      }
    }
  }

  /** The first `n` actions of a table lead to its stage `n`. */
  lemma {:induction false} Follow(workers: nat, act: nat -> Action, stage: nat -> State, n: nat)
    requires stage(0) == Start(workers, 0)
    requires forall k :: 0 <= k < n ==> Steps(stage(k), act(k), stage(k + 1))
    ensures After(workers, 0, Actions(act, n)) == stage(n)
  {
    hide SysInv, T.Inv, E.Inv, Do, Can, Start;
    StartInv(workers, 0);
    if n > 0 {
      Follow(workers, act, stage, n - 1);
      assert Steps(stage(n - 1), act(n - 1), stage(n));
      RunConcat(Start(workers, 0), Actions(act, n - 1), [act(n - 1)]);
      OneAction(stage(n - 1), act(n - 1));
    }
  }

  // ---------------------------------------------------------------- what the runs show

  /** The table at the start. */
  ghost predicate AtFirst(t: E.Table) { t == NoEvents() && E.Inv(t) && Empty(t) }

  lemma First() returns (t: E.Table)
    ensures AtFirst(t)
  {
    EmptyFirst();
    t := NoEvents();
  }

  lemma StopReaches(t: E.Table)
    requires AtFirst(t)
    ensures After(1, 0, Actions(StopAct, 3)) == StopStage(t, 3)
  {
    hide Steps, After, E.Inv;
    var stage := (k: nat) => StopStage(t, k);
    forall k | 0 <= k < 3 ensures Steps(stage(k), StopAct(k), stage(k + 1)) {
      StopSteps(t, k);
    }
    Follow(1, StopAct, stage, 3);
  }

  lemma LateReaches(t: E.Table)
    requires AtFirst(t)
    ensures After(1, 0, Actions(LateAct, 5)) == LateStage(t, 5)
  {
    hide Steps, After, E.Inv;
    var stage := (k: nat) => LateStage(t, k);
    forall k | 0 <= k < 5 ensures Steps(stage(k), LateAct(k), stage(k + 1)) {
      LateSteps(t, k);
    }
    Follow(1, LateAct, stage, 5);
  }

  lemma HastyReaches(t: E.Table)
    requires AtFirst(t)
    ensures After(2, 0, Actions(HastyAct, 25)) == HastyStage(t, 25)
  {
    hide Steps, After, E.Inv;
    var stage := (k: nat) => HastyStage(t, k);
    forall k | 0 <= k < 25 ensures Steps(stage(k), HastyAct(k), stage(k + 1)) {
      HastySteps(t, k);
    }
    Follow(2, HastyAct, stage, 25);
  }

  lemma StuckReaches(t: E.Table)
    requires AtFirst(t)
    ensures After(1, 0, Actions(StuckAct, 6)) == StuckStage(t, 6)
  {
    hide Steps, After, E.Inv;
    var stage := (k: nat) => StuckStage(t, k);
    forall k | 0 <= k < 6 ensures Steps(stage(k), StuckAct(k), stage(k + 1)) {
      StuckSteps(t, k);
    }
    Follow(1, StuckAct, stage, 6);
  }

  lemma StrandedReaches(t: E.Table)
    requires AtFirst(t)
    ensures After(2, 0, Actions(StrandedAct, 18)) == StrandedStage(t, 18)
  {
    hide Steps, After, E.Inv;
    var stage := (k: nat) => StrandedStage(t, k);
    forall k | 0 <= k < 18 ensures Steps(stage(k), StrandedAct(k), stage(k + 1)) {
      StrandedSteps(t, k);
    }
    Follow(2, StrandedAct, stage, 18);
  }

  lemma StopEnds(t: E.Table)
    requires E.Inv(t) && Empty(t)
    ensures Stopping(StopStage(t, 3)) && InFlight(StopStage(t, 3))
  {
    hide E.Inv;
    assert Carrying(StopStage(t, 3).p.fl.workers[0]);
  }

  function Submitted(s: State): State { s.(p := s.p.(queue := s.p.queue + [JOB]), late := true) }

  lemma LateEnds(t: E.Table)
    requires E.Inv(t) && Empty(t)
    ensures var s := Submitted(LateStage(t, 5)); AllExited(s) && !NothingLeft(s) && s.late && !s.hasty
  {
    hide E.Inv;
    assert |Submitted(LateStage(t, 5)).p.queue| == 1;
  }

  lemma LateSubmits(t: E.Table)
    requires E.Inv(t) && Empty(t)
    ensures Steps(LateStage(t, 5), ByUser(None, Submit(0, -1)), Submitted(LateStage(t, 5)))
  {
    hide T.Inv, E.Inv, Steps;
    Sound(User(0));
    OnUser(LateStage(t, 5), None, Submit(0, -1), Submitted(LateStage(t, 5)));
  }

  lemma HastyEnds(t: E.Table)
    requires E.Inv(t) && Empty(t)
    ensures var s := HastyStage(t, 25); AllExited(s) && !NothingLeft(s) && s.hasty && !s.late
  {
    hide E.Inv;
    assert HastyStage(t, 25).p.queue != [];
  }

  lemma SleeperParks(t: E.Table)
    requires E.Inv(t) && Empty(t)
    ensures Running(StuckStage(t, 6), 0)
    ensures Steps(StuckStage(t, 6), ByFiber(0, SleepPark), DoPark(StuckStage(t, 6), 0, SleepParked))
    ensures Stuck(DoPark(StuckStage(t, 6), 0, SleepParked), 0)
  {
    hide T.Inv, E.Inv, Steps;
    Sound(Wake(0));
    OnSleepPark(StuckStage(t, 6), 0, DoPark(StuckStage(t, 6), 0, SleepParked));
  }

  /** The stop check passes while a worker has an entry in hand. */
  lemma StopWhileInFlight()
    ensures var s := After(1, 0, Actions(StopAct, 3)); Stopping(s) && InFlight(s)
  {
    hide After, Actions, StopStage, Stopping, InFlight;
    var t := First();
    StopReaches(t);
    StopEnds(t);
  }

  /** Every worker has left, and a submission from outside after the stop is left in the queue. */
  lemma LateSubmissionIsLeft()
    ensures var s := After(1, 0, Actions(LateAct, 5) + [ByUser(None, Submit(0, -1))]);
            AllExited(s) && !NothingLeft(s) && s.late && !s.hasty
  {
    hide Steps, After, Actions, SysInv, LateStage, Submitted, AllExited, NothingLeft;
    var t := First();
    LateReaches(t);
    LateSubmits(t);
    OneStepOn(1, Actions(LateAct, 5), ByUser(None, Submit(0, -1)), Submitted(LateStage(t, 5)));
    LateEnds(t);
  }

  /** Nothing came from outside, every worker has left, and an entry is left: both checks passed while the
      other worker had work in hand. */
  lemma HastyStopLeavesWork()
    ensures var s := After(2, 0, Actions(HastyAct, 25));
            AllExited(s) && !NothingLeft(s) && s.hasty && !s.late
  {
    hide After, Actions, HastyStage, AllExited, NothingLeft;
    var t := First();
    HastyReaches(t);
    HastyEnds(t);
  }

  /** A fiber handed to `schedule` is stuck the first time it sleeps. */
  lemma SleepingFiberIsStuck()
    ensures Stuck(After(1, 0, Actions(StuckAct, 6) + [ByFiber(0, SleepPark)]), 0)
  {
    hide Steps, After, Actions, SysInv, Stuck, StuckStage, DoPark;
    var t := First();
    StuckReaches(t);
    SleeperParks(t);
    OneStepOn(1, Actions(StuckAct, 6), ByFiber(0, SleepPark), DoPark(StuckStage(t, 6), 0, SleepParked));
  }

  /** A call is stranded: its fiber is in the slot, its timer has fired, and no closure is left. */
  lemma CallIsStranded() returns (acts: seq<Action>)
    ensures Stranded(After(2, 0, acts), 0)
  {
    hide Steps, After, Actions, SysInv, T.Inv, E.Inv, Stranded, Crossing, StrandedStage, Vacant;
    var t := First();
    StrandedReaches(t);
    AfterIsSound(2, Actions(StrandedAct, 18));
    NothingRegistered(E.READ);
    ReadyToCross(t);
    var more := TimeoutBeforeTheWait(StrandedStage(t, 18), 0, 1, 0);
    acts := Actions(StrandedAct, 18) + more;
    AfterConcat(2, Actions(StrandedAct, 18), more);
  }

  lemma ReadyToCross(t: E.Table)
    requires E.Inv(t) && Empty(t) && Vacant(t, 0, E.READ)
    ensures var s := StrandedStage(t, 18); Crossing(s, 0, 1, 0) && CanBeginTimeout(s, 1) && MyPc(s, 1).cb.call == 0
  {
    hide E.Inv, Vacant;
  }

  lemma AfterIsSound(workers: nat, acts: seq<Action>)
    ensures SysInv(After(workers, 0, acts))
  {}

  lemma AfterConcat(workers: nat, acts: seq<Action>, more: seq<Action>)
    ensures SysInv(After(workers, 0, acts)) && After(workers, 0, acts + more) == Run(After(workers, 0, acts), more)
  {
    StartInv(workers, 0);
    hide SysInv, Run;
    RunConcat(Start(workers, 0), acts, more);
  }

  lemma OneStepOn(workers: nat, acts: seq<Action>, a: Action, s': State)
    requires Steps(After(workers, 0, acts), a, s')
    ensures After(workers, 0, acts + [a]) == s'
  {
    StartInv(workers, 0);
    AfterConcat(workers, acts, [a]);
    OneAction(After(workers, 0, acts), a);
    hide SysInv, Run, Do, Can, T.Inv, E.Inv;
  }

  lemma NothingRegistered(e: E.Event)
    ensures Vacant(NoEvents(), 0, e)
  {}
}
