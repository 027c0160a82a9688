/** The program that a blocking call runs past the early returns of `do_io`. */
module IoProgram {
  import opened Common
  import opened Fleet

  /** What happens in `do_io` past its early returns. `Resume` is the worker's doing. */
  datatype IoStep = Done | Again | Add(ok: bool) | GiveUp | Park | Resume | Disarm | ReadFlag(hit: bool)

  /** The step leads from one point of call `c` to the next; `Code` is behind the call. */
  predicate Moves(c: nat, pc: Pc, st: IoStep, pc': Pc) {
    match st
    case Done => pc == IoTry(c) && pc' == Code
    case Again => pc == IoTry(c) && pc' == IoReady(c)
    case Add(ok) => pc == IoReady(c) && pc' == if ok then IoYield(c) else IoFail(c)
    case GiveUp => pc == IoFail(c) && pc' == Code
    case Park => pc == IoYield(c) && pc' == IoParked(c)
    case Resume => pc == IoParked(c) && pc' == IoWoken(c)
    case Disarm => pc == IoWoken(c) && pc' == IoCheck(c)
    case ReadFlag(hit) => pc == IoCheck(c) && pc' == if hit then Code else IoTry(c)
  }

  /** The steps lead from `pc` to `end`. */
  predicate Follows(c: nat, pc: Pc, path: seq<IoStep>, end: Pc)
    decreases |path|
  {
    if path == [] then pc == end else Moves(c, pc, path[0], Next(c, pc, path[0])) && Follows(c, Next(c, pc, path[0]), path[1..], end)
  }

  /** The point that the step leads to. */
  function Next(c: nat, pc: Pc, st: IoStep): Pc {
    match st
    case Done => Code
    case Again => IoReady(c)
    case Add(ok) => if ok then IoYield(c) else IoFail(c)
    case GiveUp => Code
    case Park => IoParked(c)
    case Resume => IoWoken(c)
    case Disarm => IoCheck(c)
    case ReadFlag(hit) => if hit then Code else IoTry(c)
  }

  lemma {:induction false} FollowsConcat(c: nat, pc: Pc, p: seq<IoStep>, mid: Pc, q: seq<IoStep>, end: Pc)
    requires Follows(c, pc, p, mid) && Follows(c, mid, q, end)
    ensures Follows(c, pc, p + q, end)
    decreases |p|
  {
    if p == [] {
      assert p + q == q;
    } else {
      assert (p + q)[0] == p[0] && (p + q)[1..] == p[1..] + q;
      FollowsConcat(c, Next(c, pc, p[0]), p[1..], mid, q, end);
    }
  }

  // ---------------------------------------------------------------- turns from `retry`

  /** What one turn meets: EAGAIN or another result, whether `addEvent` succeeds, and whether the flag is
      set when the fiber is back. */
  datatype Round = Round(again: bool, ok: bool, flag: bool)

  /** The steps of one turn. */
  function RoundPath(r: Round): seq<IoStep> {
    if !r.again then [Done]
    else if !r.ok then [Again, Add(false), GiveUp]
    else [Again, Add(true), Park, Resume, Disarm, ReadFlag(r.flag)]
  }

  predicate Ends(r: Round) { !r.again || !r.ok || r.flag }

  function RoundResult(r: Round): IoResult {
    if !r.again then Returned else if !r.ok then Refused else TimedOut
  }

  /** The steps of the turns up to the first that ends the call. */
  function PathOf(rounds: seq<Round>): seq<IoStep> {
    if rounds == [] then []
    else if Ends(rounds[0]) then RoundPath(rounds[0])
    else RoundPath(rounds[0]) + PathOf(rounds[1..])
  }

  lemma RoundFollows(c: nat, r: Round)
    ensures Follows(c, IoTry(c), RoundPath(r), if Ends(r) then Code else IoTry(c))
  {
    if r.again && r.ok {
      var back := if r.flag then Code else IoTry(c);
      assert Follows(c, IoCheck(c), [ReadFlag(r.flag)], back) by { assert [ReadFlag(r.flag)][1..] == []; }
      One(c, IoWoken(c), Disarm, [ReadFlag(r.flag)], back);
      One(c, IoParked(c), Resume, [Disarm, ReadFlag(r.flag)], back);
      One(c, IoYield(c), Park, [Resume, Disarm, ReadFlag(r.flag)], back);
      One(c, IoReady(c), Add(true), [Park, Resume, Disarm, ReadFlag(r.flag)], back);
      One(c, IoTry(c), Again, [Add(true), Park, Resume, Disarm, ReadFlag(r.flag)], back);
    } else if r.again {
      assert Follows(c, IoFail(c), [GiveUp], Code) by { assert [GiveUp][1..] == []; }
      One(c, IoReady(c), Add(false), [GiveUp], Code);
      One(c, IoTry(c), Again, [Add(false), GiveUp], Code);
    } else {
      assert [Done][1..] == [];
    }
  }

  /** Turns of which none but the last ends the call. */
  lemma {:induction false} PathFollows(c: nat, rounds: seq<Round>)
    requires forall n :: 0 <= n < |rounds| - 1 ==> !Ends(rounds[n])
    ensures Follows(c, IoTry(c), PathOf(rounds), if rounds != [] && Ends(rounds[|rounds| - 1]) then Code else IoTry(c))
  {
    hide RoundPath, Ends, Moves;
    if rounds != [] {
      RoundFollows(c, rounds[0]);
      if !Ends(rounds[0]) {
        PathFollows(c, rounds[1..]);
        FollowsConcat(c, IoTry(c), RoundPath(rounds[0]), IoTry(c), PathOf(rounds[1..]),
                      if |rounds| > 1 && Ends(rounds[|rounds| - 1]) then Code else IoTry(c));
      }
    }
  }

  lemma One(c: nat, pc: Pc, st: IoStep, rest: seq<IoStep>, end: Pc)
    requires Moves(c, pc, st, Next(c, pc, st)) && Follows(c, Next(c, pc, st), rest, end)
    ensures Follows(c, pc, [st] + rest, end)
  {
    assert ([st] + rest)[1..] == rest;
  }

  /** The loop can take every path of the program that comes to an end. */
  lemma {:induction false} EveryPathIsTaken(c: nat, path: seq<IoStep>) returns (rounds: seq<Round>)
    requires Follows(c, IoTry(c), path, Code)
    ensures PathOf(rounds) == path
    decreases |path|
  {
    if path[0] == Done {
      CodeIsTheEnd(c, path[1..]);
      rounds := [Round(false, false, false)];
      assert path == [Done];
    } else {
      var p1 := path[1..];
      assert path[0] == Again && Follows(c, IoReady(c), p1, Code);
      var p2 := p1[1..];
      assert p1[0].Add? && Follows(c, if p1[0].ok then IoYield(c) else IoFail(c), p2, Code);
      if !p1[0].ok {
        assert p2[0] == GiveUp;
        CodeIsTheEnd(c, p2[1..]);
        rounds := [Round(true, false, false)];
        assert path == [Again, Add(false), GiveUp];
      } else {
        rounds := WaitIsTaken(c, p2);
        assert path == [Again, Add(true)] + p2;
      }
    }
  }

  /** From the swap-out on: four steps, then the end or `retry`. */
  lemma WaitShape(c: nat, p2: seq<IoStep>) returns (hit: bool, rest: seq<IoStep>)
    requires Follows(c, IoYield(c), p2, Code)
    ensures p2 == [Park, Resume, Disarm, ReadFlag(hit)] + rest && Follows(c, if hit then Code else IoTry(c), rest, Code)
  {
    var p3 := p2[1..];
    assert p2[0] == Park && Follows(c, IoParked(c), p3, Code);
    var p4 := p3[1..];
    assert p3[0] == Resume && Follows(c, IoWoken(c), p4, Code);
    var p5 := p4[1..];
    assert p4[0] == Disarm && Follows(c, IoCheck(c), p5, Code);
    hit, rest := p5[0].hit, p5[1..];
  }

  lemma {:induction false} WaitIsTaken(c: nat, p2: seq<IoStep>) returns (rounds: seq<Round>)
    requires Follows(c, IoYield(c), p2, Code)
    ensures PathOf(rounds) == [Again, Add(true)] + p2
    decreases |p2|
  {
    var hit, rest := WaitShape(c, p2);
    if hit {
      CodeIsTheEnd(c, rest);
      rounds := [Round(true, true, true)];
    } else {
      var more := EveryPathIsTaken(c, rest);
      rounds := [Round(true, true, false)] + more;
      assert rounds[1..] == more;
    }
    hide Follows;
    assert [Again, Add(true)] + p2 == [Again, Add(true), Park, Resume, Disarm, ReadFlag(hit)] + rest;
  }

  lemma CodeIsTheEnd(c: nat, path: seq<IoStep>)
    requires Follows(c, Code, path, Code)
    ensures path == []
  {}
}
