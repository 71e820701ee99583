/**
 * How the trait's `Result<Box<dyn GumballMachineState>, _>` is consumed: a
 * holder of the current state installs the successor on `Ok` and keeps its
 * state on `Err`. The source has no such machine; this module is the thin
 * holder and the facts about sequences of operations driven through it.
 */
module GumballMachine {
  import opened GumballState

  /** One operation applied by the holder: the successor on success, the same state on failure. */
  function Apply(s: State, op: Op): (t: State)
    requires op == DispenseOp ==> Releasable(s)
    ensures Step(s, op).Err? ==> t == s
    ensures t.Count() == s.Count() || (op == DispenseOp && s.Sold? && t.Count() == s.Count() - 1)
    ensures Healthy(s) ==> Healthy(t)
  {
    match Step(s, op)
    case Ok(next) => next
    case Err(_) => s
  }

  /**
   * A sequence of operations from a healthy state. Health is what keeps
   * every dispense clear of the `u32` underflow, so the run is defined for
   * every sequence.
   */
  function Run(s: State, ops: seq<Op>): (t: State)
    requires Healthy(s)
    ensures Healthy(t)
    ensures t.Count() <= s.Count()
    decreases |ops|
  {
    if ops == [] then s
    else
      HealthyIsReleasable(s);
      Run(Apply(s, ops[0]), ops[1..])
  }

  /** How many times `ops` asks for a dispense. */
  function Dispenses(ops: seq<Op>): nat
  {
    if ops == [] then 0
    else (if ops[0] == DispenseOp then 1 else 0) + Dispenses(ops[1..])
  }

  /** Gumballs leave only through dispense, one per dispense at most. */
  lemma {:induction false} RunSpendsAtMostDispenses(s: State, ops: seq<Op>)
    requires Healthy(s)
    ensures s.Count() - Run(s, ops).Count() <= Dispenses(ops)
    decreases |ops|
  {
    if ops != [] {
      HealthyIsReleasable(s);
      RunSpendsAtMostDispenses(Apply(s, ops[0]), ops[1..]);
    }
  }

  /** Sold-out is absorbing: no sequence of operations leaves it. */
  lemma {:induction false} SoldOutIsAbsorbing(ops: seq<Op>)
    ensures Run(SoldOut, ops) == SoldOut
    decreases |ops|
  {
    if ops != [] {
      SoldOutRejectsAll(ops[0]);
      SoldOutIsAbsorbing(ops[1..]);
    }
  }

  /** Two full purchases empty a machine that started with two gumballs. */
  lemma TwoPurchasesSellOut()
    ensures Run(NoQuarter(2), [InsertQuarterOp, TurnCrankOp, DispenseOp]) == NoQuarter(1)
    ensures Run(NoQuarter(2), [InsertQuarterOp, TurnCrankOp, DispenseOp,
                               InsertQuarterOp, TurnCrankOp, DispenseOp]) == SoldOut
  {
  }

  /**
   * A zero-count no-quarter state (the default one) accepts a quarter and a
   * crank turn, and ends in a sold state whose dispense would underflow.
   */
  lemma ZeroCountReachesPanic()
    ensures InsertQuarter(NoQuarter(0)) == Ok(HasQuarter(0))
    ensures TurnCrank(HasQuarter(0)) == Ok(Sold(0))
    ensures !Releasable(Sold(0))
    ensures !Healthy(NoQuarter(0))
  {
  }

  /** The holder of the current state. */
  class Machine {
    var state: State

    constructor (initial: State)
      ensures state == initial
    {
      state := initial;
    }

    /** `get_id` of the held state. */
    function StateId(): StateId
      reads this
    {
      state.Id()
    }

    /** `get_count` of the held state. */
    function Count(): u32
      reads this
    {
      state.Count()
    }

    /** Forward `op` to the held state's handler and install the successor on success. */
    method Perform(op: Op) returns (r: Result)
      requires op == DispenseOp ==> Releasable(state)
      modifies this
      ensures r == Step(old(state), op)
      ensures state == Apply(old(state), op)
      ensures r.Err? ==> state == old(state)
    {
      r := Step(state, op);
      if r.Ok? {
        state := r.state;
      }
    }

    method InsertQuarter() returns (r: Result)
      modifies this
      ensures r == GumballState.InsertQuarter(old(state))
      ensures state == Apply(old(state), InsertQuarterOp)
    {
      r := Perform(InsertQuarterOp);
    }

    method EjectQuarter() returns (r: Result)
      modifies this
      ensures r == GumballState.EjectQuarter(old(state))
      ensures state == Apply(old(state), EjectQuarterOp)
    {
      r := Perform(EjectQuarterOp);
    }

    method TurnCrank() returns (r: Result)
      modifies this
      ensures r == GumballState.TurnCrank(old(state))
      ensures state == Apply(old(state), TurnCrankOp)
    {
      r := Perform(TurnCrankOp);
    }

    method Dispense() returns (r: Result)
      requires Releasable(state)
      modifies this
      ensures r == GumballState.Dispense(old(state))
      ensures state == Apply(old(state), DispenseOp)
    {
      r := Perform(DispenseOp);
    }
  }
}
