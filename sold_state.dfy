/**
 * The in-place half of state/src/sold_state.rs: the `SoldState` struct whose
 * `release_ball` decrements its own count before `dispense` chooses the
 * successor.
 */
module GumballSoldState {
  import opened GumballState

  /**
   * `SoldState` with the in-place update of its count: `release_ball`
   * decrements the field, and `dispense` picks the successor from the
   * decremented value.
   */
  class SoldState {
    var count: u32

    constructor (count: u32)
      ensures this.count == count
    {
      this.count := count;
    }

    /** The state value this struct stands for, as `&dyn GumballMachineState`. */
    function AsState(): (s: State)
      reads this
    {
      Sold(count)
    }

    /** `release_ball`: `self.count -= 1`, which panics on a zero count. */
    method ReleaseBall()
      requires count >= 1
      modifies this
      ensures count == old(count) - 1
    {
      count := count - 1;
    }

    /** `dispense` as the source writes it: release first, then branch on the new count. */
    method Dispense() returns (r: Result)
      requires count >= 1
      modifies this
      ensures count == old(count) - 1
      ensures r == GumballState.Dispense(Sold(old(count)))
    {
      ReleaseBall();
      var state := AsState();
      if count > 0 {
        r := Ok(NoQuarterFrom(state));
      } else {
        r := Ok(SoldOutFrom(state));
      }
    }
  }
}
