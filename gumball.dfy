/** The gumball machine of the State pattern: a context that holds a ball count
    and one of five pre-built state objects, and delegates every action to the
    current state. The state objects call back into the context to change the
    current state or to release a ball. */
module GumballState {

  /** The five state objects a machine creates once; the context refers to one. */
  datatype StateTag = NoQuarter | HasQuarter | OneBallWin | TwoBallWin | SoldOut

  /** The value HasQuarterState.turn_crank draws uniformly from [0, 10). */
  type Draw = d: int | 0 <= d < 10

  /** The two fields of the context, as a value: the current state and the count. */
  datatype Machine = Machine(state: StateTag, count: int)

  /** The result of an action that may raise: the `assert curr_count > 0` of the
      single-win branch raises AssertionError and leaves the machine as it was. */
  datatype Outcome = Done(machine: Machine) | AssertionFailed

  /** The states a machine rests in between two public operations. */
  predicate Resting(s: StateTag) {
    s == NoQuarter || s == HasQuarter || s == SoldOut
  }

  /** The machine's state agrees with its count: it rests, and it is sold out
      exactly when no ball is left. */
  predicate Consistent(m: Machine) {
    Resting(m.state) && (m.state == SoldOut <==> m.count <= 0)
  }

  // ---------------------------------------------------------------------------
  // The context's own operations
  // ---------------------------------------------------------------------------

  /** GumballMachine.__init__: any integer is accepted; only a positive count
      starts in NoQuarter. */
  function Init(numGumBall: int): (m: Machine)
    ensures m.count == numGumBall
    ensures m.state == NoQuarter <==> numGumBall > 0
    ensures m.state == SoldOut <==> numGumBall <= 0
  {
    Machine(if numGumBall > 0 then NoQuarter else SoldOut, numGumBall)
  }

  /** release_one_ball on the count: a ball leaves only when there is one. */
  function Release(count: int): (r: int)
    ensures r <= count
    ensures count > 0 ==> r == count - 1 && r >= 0
    ensures count <= 0 ==> r == count
  {
    if count > 0 then count - 1 else count
  }

  // ---------------------------------------------------------------------------
  // The state objects' actions that do more than report
  // ---------------------------------------------------------------------------

  /** NoQuarterState.insert_quarter: move to HasQuarter; with no ball left, eject
      the quarter again through the context (which delegates to HasQuarter). */
  function NoQuarterInsert(m: Machine): Machine {
    var paid := m.(state := HasQuarter);
    if paid.count == 0 then Eject(paid) else paid
  }

  /** HasQuarterState.eject_quarter. */
  function HasQuarterEject(m: Machine): Machine {
    m.(state := NoQuarter)
  }

  /** HasQuarterState.turn_crank with the draw as a parameter. */
  function HasQuarterTurn(m: Machine, draw: Draw): Outcome {
    if draw == 0 && m.count > 1 then Done(m.(state := TwoBallWin))
    else if m.count > 0 then Done(m.(state := OneBallWin))
    else AssertionFailed
  }

  /** The state a win state moves to once it has released its balls. */
  function AfterRelease(count: int): Machine {
    Machine(if count > 0 then NoQuarter else SoldOut, count)
  }

  /** OneBallWinState.dispense. */
  function OneBallWinDispensed(m: Machine): Machine {
    AfterRelease(Release(m.count))
  }

  /** TwoBallWinState.dispense: two releases in sequence. */
  function TwoBallWinDispensed(m: Machine): Machine {
    AfterRelease(Release(Release(m.count)))
  }

  // ---------------------------------------------------------------------------
  // Delegation to the current state (every other state action only reports)
  // ---------------------------------------------------------------------------

  /** GumballMachine.insert_quarter. */
  function Insert(m: Machine): Machine {
    if m.state == NoQuarter then NoQuarterInsert(m) else m
  }

  /** GumballMachine.eject_quarter. */
  function Eject(m: Machine): Machine {
    if m.state == HasQuarter then HasQuarterEject(m) else m
  }

  /** The current state's turn_crank. */
  function Turn(m: Machine, draw: Draw): Outcome {
    if m.state == HasQuarter then HasQuarterTurn(m, draw) else Done(m)
  }

  /** The current state's dispense. */
  function Dispensed(m: Machine): Machine {
    match m.state
    case OneBallWin => OneBallWinDispensed(m)
    case TwoBallWin => TwoBallWinDispensed(m)
    case _ => m
  }

  /** GumballMachine.turn_crank: turn, then dispense on the state the turn left. */
  function Cranked(m: Machine, draw: Draw): Outcome {
    match Turn(m, draw)
    case Done(turned) => Done(Dispensed(turned))
    case AssertionFailed => AssertionFailed
  }

  /** The public operations of the machine. */
  datatype Action = InsertQuarter | EjectQuarter | TurnTheCrank(draw: Draw)

  /** One public operation. */
  function Step(m: Machine, a: Action): Outcome {
    match a
    case InsertQuarter => Done(Insert(m))
    case EjectQuarter => Done(Eject(m))
    case TurnTheCrank(d) => Cranked(m, d)
  }

  /** A sequence of public operations, stopping at the first one that raises. */
  function Run(m: Machine, actions: seq<Action>): Outcome
    decreases |actions|
  {
    if actions == [] then Done(m)
    else match Step(m, actions[0])
      case Done(next) => Run(next, actions[1..])
      case AssertionFailed => AssertionFailed
  }

  // ---------------------------------------------------------------------------
  // The context as the class the source has
  // ---------------------------------------------------------------------------

  class GumballMachine {
    var state: StateTag
    var count: int

    function Snapshot(): Machine
      reads this
    {
      Machine(state, count)
    }

    constructor (numGumBall: int)
      ensures Snapshot() == Init(numGumBall)
    {
      count := numGumBall;
      state := if numGumBall > 0 then NoQuarter else SoldOut;
    }

    method SetState(s: StateTag)
      modifies this
      ensures state == s && count == old(count)
    {
      state := s;
    }

    method ReleaseOneBall()
      modifies this
      ensures state == old(state) && count == Release(old(count))
    {
      if count > 0 {
        count := count - 1;
      }
    }

    method GetCount() returns (n: int)
      ensures n == count
    {
      n := count;
    }

    method GetState() returns (s: StateTag)
      ensures s == state
    {
      s := state;
    }

    method NoQuarterInsertQuarter()
      modifies this
      ensures Snapshot() == NoQuarterInsert(old(Snapshot()))
    {
      SetState(HasQuarter);
      var n := GetCount();
      if n == 0 {
        EjectQuarter();
      }
    }

    method HasQuarterEjectQuarter()
      modifies this
      ensures Snapshot() == HasQuarterEject(old(Snapshot()))
    {
      SetState(NoQuarter);
    }

    /** Returns false when the assertion of the single-win branch fails. */
    method HasQuarterTurnCrank(draw: Draw) returns (ok: bool)
      modifies this
      ensures HasQuarterTurn(old(Snapshot()), draw) == if ok then Done(Snapshot()) else AssertionFailed
      ensures !ok ==> Snapshot() == old(Snapshot())
    {
      var n := GetCount();
      if draw == 0 && n > 1 {
        SetState(TwoBallWin);
        ok := true;
      } else if n > 0 {
        SetState(OneBallWin);
        ok := true;
      } else {
        ok := false;
      }
    }

    method OneBallWinDispense()
      modifies this
      ensures Snapshot() == OneBallWinDispensed(old(Snapshot()))
    {
      ReleaseOneBall();
      var n := GetCount();
      if n > 0 {
        SetState(NoQuarter);
      } else {
        SetState(SoldOut);
      }
    }

    method TwoBallWinDispense()
      modifies this
      ensures Snapshot() == TwoBallWinDispensed(old(Snapshot()))
    {
      ReleaseOneBall();
      ReleaseOneBall();
      var n := GetCount();
      if n > 0 {
        SetState(NoQuarter);
      } else {
        SetState(SoldOut);
      }
    }

    method InsertQuarter()
      modifies this
      ensures Snapshot() == Insert(old(Snapshot()))
    {
      if state == NoQuarter {
        NoQuarterInsertQuarter();
      }
    }

    method EjectQuarter()
      modifies this
      ensures Snapshot() == Eject(old(Snapshot()))
    {
      if state == HasQuarter {
        HasQuarterEjectQuarter();
      }
    }

    method Dispense()
      modifies this
      ensures Snapshot() == Dispensed(old(Snapshot()))
    {
      match state
      case OneBallWin => OneBallWinDispense();
      case TwoBallWin => TwoBallWinDispense();
      case _ =>
    }

    /** Returns false when the turn raised; dispense then does not run. */
    method TurnCrank(draw: Draw) returns (ok: bool)
      modifies this
      ensures Cranked(old(Snapshot()), draw) == if ok then Done(Snapshot()) else AssertionFailed
      ensures !ok ==> Snapshot() == old(Snapshot())
    {
      ok := true;
      if state == HasQuarter {
        ok := HasQuarterTurnCrank(draw);
      }
      if ok {
        Dispense();
      }
    }
  }

  // ---------------------------------------------------------------------------
  // Properties
  // ---------------------------------------------------------------------------

  /** A new machine is consistent, whatever integer it was given. */
  lemma InitConsistent(numGumBall: int)
    ensures Consistent(Init(numGumBall))
  {
  }

  /** The count changes only by releases: an action never raises it, never
      takes it below zero when it was not negative, and never changes a
      count that is already zero or negative. */
  lemma StepCountMonotone(m: Machine, a: Action)
    ensures Step(m, a).Done? ==> Step(m, a).machine.count <= m.count
    ensures Step(m, a).Done? && m.count >= 0 ==> Step(m, a).machine.count >= 0
    ensures Step(m, a).Done? && m.count <= 0 ==> Step(m, a).machine.count == m.count
  {
  }

  /** From a consistent machine every public operation succeeds, and the
      machine it leaves is consistent again. */
  lemma StepPreservesConsistent(m: Machine, a: Action)
    requires Consistent(m)
    ensures Step(m, a).Done? && Consistent(Step(m, a).machine)
  {
  }

  /** The assertion of the single-win branch fails exactly when a crank is
      turned with a quarter in and no ball left (a state reached only through
      set_state or a direct call of a state object's action), so it never fails
      from a consistent machine. */
  lemma TurnCrankFailsExactly(m: Machine, draw: Draw)
    ensures Cranked(m, draw) == AssertionFailed <==> m.state == HasQuarter && m.count <= 0
  {
  }

  /** SoldOut is terminal: no action changes the state or the count. */
  lemma SoldOutTerminal(m: Machine, a: Action)
    requires m.state == SoldOut
    ensures Step(m, a) == Done(m)
  {
  }

  /** A turn moves into TwoBallWin exactly for draw 0 in HasQuarter with more
      than one ball. */
  lemma TwoBallWinOnlyWithTwoBalls(m: Machine, draw: Draw)
    requires m.state != TwoBallWin
    ensures Turn(m, draw).Done? && Turn(m, draw).machine.state == TwoBallWin
        <==> m.state == HasQuarter && draw == 0 && m.count > 1
  {
  }

  /** A full crank from HasQuarter with at least one ball: one ball leaves, or
      two for a double win; the machine is then in NoQuarter while balls are
      left and in SoldOut otherwise. */
  lemma CrankFromHasQuarter(n: int, draw: Draw)
    requires n >= 1
    ensures Cranked(Machine(HasQuarter, n), draw).Done?
    ensures var after := Cranked(Machine(HasQuarter, n), draw).machine;
      && (if draw == 0 && n >= 2 then after.count == n - 2 else after.count == n - 1)
      && (after.state == if after.count > 0 then NoQuarter else SoldOut)
  {
  }

  /** In HasQuarter, eject returns to NoQuarter and insert changes nothing; the
      win states ignore insert, eject and their own turn. */
  lemma IgnoredActions(m: Machine, draw: Draw)
    ensures m.state == HasQuarter ==> Eject(m) == Machine(NoQuarter, m.count) && Insert(m) == m
    ensures m.state == OneBallWin || m.state == TwoBallWin ==>
      Insert(m) == m && Eject(m) == m && Turn(m, draw) == Done(m)
  {
  }

  /** Inserting a quarter with no ball left ejects it at once: the net effect is
      nothing. With balls left, the quarter stays. */
  lemma InsertIntoEmptyEjects(m: Machine)
    requires m.state == NoQuarter
    ensures m.count == 0 ==> Insert(m) == m
    ensures m.count != 0 ==> Insert(m) == Machine(HasQuarter, m.count)
  {
  }

  /** A second insert after a successful one changes nothing. */
  lemma InsertTwice(m: Machine)
    ensures Insert(Insert(m)) == Insert(m)
  {
  }

  /** Any sequence of public operations from a consistent machine succeeds,
      leaves a consistent machine, and never raises the count (nor takes it
      below zero when it started at or above zero). */
  lemma {:induction false} RunPreservesConsistent(m: Machine, actions: seq<Action>)
    requires Consistent(m)
    ensures Run(m, actions).Done?
    ensures Consistent(Run(m, actions).machine)
    ensures Run(m, actions).machine.count <= m.count
    ensures m.count >= 0 ==> Run(m, actions).machine.count >= 0
    decreases |actions|
  {
    if actions != [] {
      StepPreservesConsistent(m, actions[0]);
      StepCountMonotone(m, actions[0]);
      RunPreservesConsistent(Step(m, actions[0]).machine, actions[1..]);
    }
  }

  /** Once sold out, no sequence of actions leaves SoldOut or changes the count. */
  lemma {:induction false} RunFromSoldOut(m: Machine, actions: seq<Action>)
    requires m.state == SoldOut
    ensures Run(m, actions) == Done(m)
    decreases |actions|
  {
    if actions != [] {
      SoldOutTerminal(m, actions[0]);
      RunFromSoldOut(m, actions[1..]);
    }
  }

  /** Running two sequences one after the other is running their concatenation. */
  lemma {:induction false} RunAppend(m: Machine, first: seq<Action>, second: seq<Action>)
    ensures Run(m, first + second) ==
      match Run(m, first)
      case Done(mid) => Run(mid, second)
      case AssertionFailed => AssertionFailed
    decreases |first|
  {
    if first == [] {
      assert first + second == second;
    } else {
      assert (first + second)[0] == first[0];
      assert (first + second)[1..] == first[1..] + second;
      match Step(m, first[0])
      case Done(next) => RunAppend(next, first[1..], second);
      case AssertionFailed =>
    }
  }

  /** A machine with two balls: insert and crank with a draw that is not a double
      win leaves one ball and NoQuarter; a second round empties it. */
  lemma TwoBallScenario(d1: Draw, d2: Draw)
    requires d1 != 0
    ensures Run(Init(2), [InsertQuarter, TurnTheCrank(d1)]) == Done(Machine(NoQuarter, 1))
    ensures Run(Init(2), [InsertQuarter, TurnTheCrank(d1), InsertQuarter, TurnTheCrank(d2)])
      == Done(Machine(SoldOut, 0))
  {
    var round1, round2 := [InsertQuarter, TurnTheCrank(d1)], [InsertQuarter, TurnTheCrank(d2)];
    assert Run(Machine(HasQuarter, 2), round1[1..]) == Done(Machine(NoQuarter, 1));
    assert Run(Machine(HasQuarter, 1), round2[1..]) == Done(Machine(SoldOut, 0));
    assert round1 + round2 == [InsertQuarter, TurnTheCrank(d1), InsertQuarter, TurnTheCrank(d2)];
    RunAppend(Init(2), round1, round2);
  }

  /** A machine with one ball: whatever the draw, the crank gives a single win
      and the machine ends sold out with no ball. */
  lemma OneBallScenario(draw: Draw)
    ensures Turn(Insert(Init(1)), draw) == Done(Machine(OneBallWin, 1))
    ensures Run(Init(1), [InsertQuarter, TurnTheCrank(draw)]) == Done(Machine(SoldOut, 0))
  {
    var round := [InsertQuarter, TurnTheCrank(draw)];
    assert Run(Machine(HasQuarter, 1), round[1..]) == Done(Machine(SoldOut, 0));
  }

  /** The class keeps its consistency through a use that only calls the public
      operations. */
  method ConsistentUse(n: int, draws: seq<Draw>) returns (m: GumballMachine)
    ensures fresh(m) && Consistent(m.Snapshot()) && m.count <= n
  {
    m := new GumballMachine(n);
    InitConsistent(n);
    var i := 0;
    while i < |draws|
      invariant 0 <= i <= |draws|
      invariant Consistent(m.Snapshot()) && m.count <= n
    {
      ghost var before := m.Snapshot();
      m.InsertQuarter();
      StepPreservesConsistent(before, InsertQuarter);
      StepCountMonotone(before, InsertQuarter);
      ghost var paid := m.Snapshot();
      var ok := m.TurnCrank(draws[i]);
      StepPreservesConsistent(paid, TurnTheCrank(draws[i]));
      StepCountMonotone(paid, TurnTheCrank(draws[i]));
      i := i + 1;
    }
  }
}
