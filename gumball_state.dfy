/**
 * The gumball machine's states, its error taxonomy and the transition rules
 * of each state (state/src/state.rs and the four state files beside it).
 *
 * Every state handler of the source becomes one arm of a `match` over the
 * `State` datatype; the successor that the source returns in a `Box` is the
 * `Ok` value of a `Result`.
 */
module GumballState {

  /** The source keeps every gumball count in a `u32`. */
  type u32 = x: int | 0 <= x < 0x1_0000_0000

  /** `GumballMachineStateId`: the tag each state reports through `get_id`. */
  datatype StateId = NoQuarterState | HasQuarterState | SoldOutState | SoldState

  /** `GumballMachineStateError`: why an operation is refused. */
  datatype Error =
    | NoQuarterInserted
    | AlreadyHasQuarter
    | CrankHasNotBeenTurned
    | AlreadyTurnedCrank
    | OutOfGumballs

  /**
   * The four state structs. `NoQuarterState`, `HasQuarterState` and
   * `SoldState` carry a count; `SoldOutState` is a unit struct.
   */
  datatype State =
    | NoQuarter(count: u32)
    | HasQuarter(count: u32)
    | Sold(count: u32)
    | SoldOut
  {
    /** `get_id` */
    function Id(): (id: StateId)
      ensures id == NoQuarterState <==> NoQuarter?
      ensures id == HasQuarterState <==> HasQuarter?
      ensures id == SoldState <==> Sold?
      ensures id == SoldOutState <==> SoldOut?
    {
      match this
      case NoQuarter(_) => NoQuarterState
      case HasQuarter(_) => HasQuarterState
      case Sold(_) => SoldState
      case SoldOut => SoldOutState
    }

    /** `get_count`; the sold-out state always reports 0. */
    function Count(): (c: u32)
      ensures SoldOut? ==> c == 0
      ensures !SoldOut? ==> c == count
    {
      if SoldOut? then 0 else count
    }
  }

  /** The successor state or the reason the operation was refused. */
  datatype Result = Ok(state: State) | Err(error: Error)

  /** The four operations of the `GumballMachineState` trait. */
  datatype Op = InsertQuarterOp | EjectQuarterOp | TurnCrankOp | DispenseOp

  /**
   * The legal-operation table, written out per (state, operation) pair: a
   * move to another state carrying the count, a refusal, or the release of
   * one gumball.
   */
  datatype Entry = MovesTo(target: StateId) | Rejects(reason: Error) | Releases

  function Table(id: StateId, op: Op): Entry
  {
    match (id, op)
    case (NoQuarterState, InsertQuarterOp) => MovesTo(HasQuarterState)
    case (NoQuarterState, _) => Rejects(NoQuarterInserted)
    case (HasQuarterState, InsertQuarterOp) => Rejects(AlreadyHasQuarter)
    case (HasQuarterState, EjectQuarterOp) => MovesTo(NoQuarterState)
    case (HasQuarterState, TurnCrankOp) => MovesTo(SoldState)
    case (HasQuarterState, DispenseOp) => Rejects(CrankHasNotBeenTurned)
    case (SoldState, DispenseOp) => Releases
    case (SoldState, _) => Rejects(AlreadyTurnedCrank)
    case (SoldOutState, _) => Rejects(OutOfGumballs)
  }

  /** `r` is what the table prescribes for `op` applied in state `s`. */
  predicate Follows(s: State, op: Op, r: Result)
  {
    match Table(s.Id(), op)
    case Rejects(e) => r == Err(e)
    case MovesTo(id) => r.Ok? && r.state.Id() == id && r.state.Count() == s.Count()
    case Releases =>
      && r.Ok?
      && r.state.Count() == s.Count() - 1
      && r.state.Id() == (if s.Count() - 1 > 0 then NoQuarterState else SoldOutState)
  }

  /** The state in which each error kind is raised: every error names one state. */
  function RaisedIn(e: Error): StateId
  {
    match e
    case NoQuarterInserted => NoQuarterState
    case AlreadyHasQuarter => HasQuarterState
    case CrankHasNotBeenTurned => HasQuarterState
    case AlreadyTurnedCrank => SoldState
    case OutOfGumballs => SoldOutState
  }

  /**
   * The machine-level invariant: the machine is sold out exactly when no
   * gumball is left. The source does not enforce it (a default
   * `NoQuarterState` has count 0), but every transition keeps it.
   */
  predicate Healthy(s: State)
  {
    s.SoldOut? <==> s.Count() == 0
  }

  /**
   * `release_ball` subtracts 1 from a `u32`; at 0 that subtraction panics,
   * so dispensing needs a sold state with at least one gumball.
   */
  predicate Releasable(s: State)
  {
    s.Sold? ==> s.count >= 1
  }

  // ---------------------------------------------------------------------
  // The `From<&dyn GumballMachineState>` conversions of the state files.
  // ---------------------------------------------------------------------

  /** `NoQuarterState::from`: copies the count of any state. */
  function NoQuarterFrom(s: State): (r: State)
    ensures r.Id() == NoQuarterState && r.Count() == s.Count()
  {
    NoQuarter(s.Count())
  }

  /** `HasQuarterState::from`: copies the count of any state. */
  function HasQuarterFrom(s: State): (r: State)
    ensures r.Id() == HasQuarterState && r.Count() == s.Count()
  {
    HasQuarter(s.Count())
  }

  /** `SoldState::from`: copies the count of any state. */
  function SoldFrom(s: State): (r: State)
    ensures r.Id() == SoldState && r.Count() == s.Count()
  {
    Sold(s.Count())
  }

  /** `SoldOutState::from`: panics unless the source state's count is 0. */
  function SoldOutFrom(s: State): (r: State)
    requires s.Count() == 0
    ensures r.Id() == SoldOutState && r.Count() == 0
  {
    SoldOut
  }

  // ---------------------------------------------------------------------
  // The four trait operations, one function each, dispatched on the state.
  // ---------------------------------------------------------------------

  /** `insert_quarter`: only a state without a quarter accepts one. */
  function InsertQuarter(s: State): (r: Result)
    ensures Follows(s, InsertQuarterOp, r)
  {
    match s
    case NoQuarter(_) => Ok(HasQuarterFrom(s))
    case HasQuarter(_) => Err(AlreadyHasQuarter)
    case Sold(_) => Err(AlreadyTurnedCrank)
    case SoldOut => Err(OutOfGumballs)
  }

  /** `eject_quarter`: only a state holding a quarter gives it back. */
  function EjectQuarter(s: State): (r: Result)
    ensures Follows(s, EjectQuarterOp, r)
  {
    match s
    case NoQuarter(_) => Err(NoQuarterInserted)
    case HasQuarter(_) => Ok(NoQuarterFrom(s))
    case Sold(_) => Err(AlreadyTurnedCrank)
    case SoldOut => Err(OutOfGumballs)
  }

  /** `turn_crank`: only a state holding a quarter moves on to selling. */
  function TurnCrank(s: State): (r: Result)
    ensures Follows(s, TurnCrankOp, r)
  {
    match s
    case NoQuarter(_) => Err(NoQuarterInserted)
    case HasQuarter(_) => Ok(SoldFrom(s))
    case Sold(_) => Err(AlreadyTurnedCrank)
    case SoldOut => Err(OutOfGumballs)
  }

  /**
   * `dispense`: the sold state releases a ball (count minus one), then moves
   * to the no-quarter state if any ball is left and to sold-out otherwise.
   */
  function Dispense(s: State): (r: Result)
    requires Releasable(s)
    ensures Follows(s, DispenseOp, r)
  {
    match s
    case NoQuarter(_) => Err(NoQuarterInserted)
    case HasQuarter(_) => Err(CrankHasNotBeenTurned)
    case Sold(count) =>
      var released := Sold(count - 1);
      if released.count > 0 then Ok(NoQuarterFrom(released)) else Ok(SoldOutFrom(released))
    case SoldOut => Err(OutOfGumballs)
  }

  /** Dispatch of a trait call to the handler of the current state. */
  function Step(s: State, op: Op): (r: Result)
    requires op == DispenseOp ==> Releasable(s)
    ensures Follows(s, op, r)
    ensures r.Err? ==> RaisedIn(r.error) == s.Id()
    ensures r.Ok? ==> r.state.Count() == s.Count() - (if op == DispenseOp then 1 else 0)
    ensures Healthy(s) && r.Ok? ==> Healthy(r.state)
  {
    match op
    case InsertQuarterOp => InsertQuarter(s)
    case EjectQuarterOp => EjectQuarter(s)
    case TurnCrankOp => TurnCrank(s)
    case DispenseOp => Dispense(s)
  }

  /** No operation ever leaves the sold-out state. */
  lemma SoldOutRejectsAll(op: Op)
    ensures Step(SoldOut, op) == Err(OutOfGumballs)
  {
  }

  /** A healthy state never hits the `u32` underflow in `release_ball`. */
  lemma HealthyIsReleasable(s: State)
    requires Healthy(s)
    ensures Releasable(s)
  {
  }

  /** The unit tests of no_quarter_state.rs: a default state takes a quarter, keeping count 0. */
  lemma NoQuarterDefaultTakesQuarter()
    ensures InsertQuarter(NoQuarter(0)) == Ok(HasQuarter(0))
    ensures EjectQuarter(NoQuarter(0)) == Err(NoQuarterInserted)
    ensures TurnCrank(NoQuarter(0)) == Err(NoQuarterInserted)
    ensures Dispense(NoQuarter(0)) == Err(NoQuarterInserted)
  {
  }

  /** The unit tests of has_quarter_state.rs. */
  lemma HasQuarterDefaultMoves()
    ensures InsertQuarter(HasQuarter(0)) == Err(AlreadyHasQuarter)
    ensures EjectQuarter(HasQuarter(0)).Ok? && EjectQuarter(HasQuarter(0)).state.Id() == NoQuarterState
    ensures TurnCrank(HasQuarter(0)).Ok? && TurnCrank(HasQuarter(0)).state.Id() == SoldState
    ensures Dispense(HasQuarter(0)) == Err(CrankHasNotBeenTurned)
  {
  }

  /** The unit tests of sold_state.rs: two balls leave one, one ball sells out. */
  lemma SoldDispenseBoundary()
    ensures Dispense(Sold(2)) == Ok(NoQuarter(1))
    ensures Dispense(Sold(1)) == Ok(SoldOut)
  {
  }
}
