# Gumball machine, beverage decorator and pizza stores in Dafny

This project models the parts of the `rust_patterns` repository that carry
logic, and proves properties of them.

- **The gumball-machine state machine** (`state/src/`). Four mutually
  exclusive states: no quarter, has quarter, sold, and sold out. Each state
  handles four operations: insert a quarter, eject it, turn the crank,
  dispense. Each handler returns a successor state or one of five errors.
  Every state carries a `u32` gumball count. The count is copied on ordinary
  moves and drops by exactly one when the sold state dispenses.
  `GumballState` holds the states, the errors, the `From` conversions and one
  function per operation. Each of those functions is proved against an
  explicit transition table (`Table`, `Follows`). `GumballSoldState` keeps
  the sold state's in-place `release_ball` and `dispense` as a class.
  `GumballMachine` is a thin holder that installs the successor on `Ok` and
  keeps its state on `Err`. It also proves facts about sequences of
  operations.
- **The beverage decorator** (`decorator/src/lib.rs`). A base beverage
  wrapped in condiments, with `Cost` and `Description` computed through the
  wrappers. The lemmas prove that the cost is the base price plus the
  surcharges, and that the description is the base name followed by
  `", <condiment>"` per wrapper, in wrap order. A beverage and its flat view
  (base plus condiment list) convert into each other exactly.
- **The factory-method pizza store** (`factory_method/src/`). Each
  preparation step sets exactly one status flag in place. `order_pizza`
  runs the four steps, so an ordered pizza has every flag set.
- **The abstract-factory pizza store** (`abstract_factory/src/pizzas/`).
  `prepare` fills ingredient slots and the other steps update the status in
  place. The ingredients themselves are opaque marker objects, so a slot is
  modelled only as filled or empty.

Integer widths: the gumball count is a `u32` subtype. The subtraction in
`release_ball` panics at zero, so dispensing requires `Releasable`: a sold
state must hold at least one gumball. Converting into the sold-out state
panics unless the count is 0, so `SoldOutFrom` requires a zero count. The
source never rules out a zero-count no-quarter state, and one leads through
insert and crank to the panicking dispense. The model names the invariant
that avoids this, `Healthy` (sold out exactly when the count is 0). It
proves that every transition keeps this invariant and that the invariant
implies `Releasable`.

## Model

| member | source | states |
|---|---|---|
| GumballState.NoQuarterFrom | state/src/no_quarter_state.rs:38-44 | converting any state into no-quarter keeps its count |
| GumballState.HasQuarterFrom | state/src/has_quarter_state.rs:40-46 | converting any state into has-quarter keeps its count |
| GumballState.SoldFrom | state/src/sold_state.rs:50-56 | converting any state into sold keeps its count |
| GumballState.SoldOutFrom | state/src/sold_out_state.rs:32-39 | entering sold-out needs a zero count (otherwise the source panics); the result reports count 0 |
| GumballState.State.Id | state/src/state.rs:21 | the reported id names exactly the variant the state is, in both directions |
| GumballState.State.Count | state/src/sold_out_state.rs:11-13 | sold-out reports 0; every other state reports the count it holds |
| GumballState.InsertQuarter | state/src/no_quarter_state.rs:20-23 | follows the table: no-quarter moves to has-quarter with the same count; has-quarter, sold and sold-out refuse with AlreadyHasQuarter, AlreadyTurnedCrank and OutOfGumballs |
| GumballState.EjectQuarter | state/src/has_quarter_state.rs:25-28 | follows the table: has-quarter moves to no-quarter with the same count; the others refuse with NoQuarterInserted, AlreadyTurnedCrank and OutOfGumballs |
| GumballState.TurnCrank | state/src/has_quarter_state.rs:30-33 | follows the table: has-quarter moves to sold with the same count; the others refuse with NoQuarterInserted, AlreadyTurnedCrank and OutOfGumballs |
| GumballState.Dispense | state/src/sold_state.rs:39-47 | follows the table: sold loses one gumball and moves to no-quarter if any remain, else to sold-out; the others refuse with NoQuarterInserted, CrankHasNotBeenTurned and OutOfGumballs; needs count >= 1 in sold |
| GumballState.Step | state/src/state.rs:20-32 | every (state, operation) pair yields exactly the table's successor or error; each error is raised in one state only; the count is kept, or reduced by one on dispense; a healthy state stays healthy |
| GumballState.SoldOutRejectsAll | state/src/sold_out_state.rs:15-29 | all four operations in sold-out fail with OutOfGumballs |
| GumballState.HealthyIsReleasable | state/src/sold_state.rs:12-16 | a state that is sold out exactly when empty never reaches the underflowing `count -= 1` |
| GumballState.NoQuarterDefaultTakesQuarter | state/src/no_quarter_state.rs:50-83 | a zero-count no-quarter state takes a quarter into has-quarter with count 0 and refuses the rest with NoQuarterInserted |
| GumballState.HasQuarterDefaultMoves | state/src/has_quarter_state.rs:52-86 | has-quarter refuses insert and dispense; eject leads to no-quarter and crank to sold |
| GumballState.SoldDispenseBoundary | state/src/sold_state.rs:89-105 | sold with 2 dispenses to no-quarter with 1; sold with 1 dispenses to sold-out |
| GumballSoldState.SoldState.constructor | state/src/sold_state.rs:7-10 | a sold state holding the given count |
| GumballSoldState.SoldState.ReleaseBall | state/src/sold_state.rs:12-16 | decrements the count in place; needs count >= 1 |
| GumballSoldState.SoldState.Dispense | state/src/sold_state.rs:39-47 | releases a ball in place, then returns exactly what the pure dispense returns for the old count |
| GumballMachine.Apply | state/src/state.rs:25-31 | a refused operation leaves the state unchanged; the count is kept or drops by one on dispense from sold; health is preserved |
| GumballMachine.Run | state/src/state.rs:25-31 | a run from a healthy state is defined for every sequence of operations, stays healthy, and never raises the count |
| GumballMachine.RunSpendsAtMostDispenses | state/src/sold_state.rs:12-16 | over any run, the gumballs spent are at most the number of dispense requests |
| GumballMachine.SoldOutIsAbsorbing | state/src/sold_out_state.rs:15-29 | no sequence of operations leaves sold-out |
| GumballMachine.TwoPurchasesSellOut | state/src/sold_state.rs:39-47 | from no-quarter with 2, one purchase leaves no-quarter with 1 and two purchases reach sold-out |
| GumballMachine.ZeroCountReachesPanic | state/src/sold_state.rs:12-16 | a zero-count no-quarter state is not healthy; insert then crank takes it to a sold state with count 0, which the underflowing `count -= 1` cannot release |
| GumballMachine.Machine.constructor | state/src/state.rs:20-23 | the holder starts with the given state |
| GumballMachine.Machine.Perform | state/src/state.rs:25-31 | returns the handler's result; installs the successor on Ok and keeps the state on Err |
| GumballMachine.Machine.InsertQuarter | state/src/state.rs:25 | result and new state of insert_quarter on the held state |
| GumballMachine.Machine.EjectQuarter | state/src/state.rs:27 | result and new state of eject_quarter on the held state |
| GumballMachine.Machine.TurnCrank | state/src/state.rs:29 | result and new state of turn_crank on the held state |
| GumballMachine.Machine.Dispense | state/src/state.rs:31 | result and new state of dispense on the held state; needs a releasable state |
| Decorator.CostIsBasePlusSurcharges | decorator/src/lib.rs:241-378 | the cost of any beverage is its base price plus the surcharge of every wrapper |
| Decorator.Cost | decorator/src/lib.rs:241-378 | every wrapper adds at least 10, so a beverage costs at least its base price plus 10 per condiment |
| Decorator.Description | decorator/src/lib.rs:241-378 | wrappers only append, so the description always starts with the base beverage's name |
| Decorator.DescriptionIsBaseThenCondiments | decorator/src/lib.rs:241-378 | the description is the base name followed by ", <condiment>" for each wrapper, innermost first |
| Decorator.WrapThenView | decorator/src/lib.rs:236-238 | wrapping a base in a list of condiments and reading back gives that base and that list |
| Decorator.ViewThenWrap | decorator/src/lib.rs:236-238 | every beverage is its base wrapped in its condiment list |
| Decorator.Wrap | decorator/src/lib.rs:236-238 | an empty condiment list leaves the base unwrapped; otherwise the outermost wrapper is the last condiment applied |
| Decorator.BaseBeverages | decorator/src/lib.rs:34-202 | Stub 0, Espresso 199, House Blend 89, Dark Roast 99, Decaf 105, each with its fixed name |
| Decorator.CondimentsDecorate | decorator/src/lib.rs:241-378 | Mocha adds 20, Soy 15, Whip and Steamed Milk 10 each, and each appends its name after ", " |
| Decorator.StubIsNeutral | decorator/src/lib.rs:256-268 | around the zero-cost stub a condiment costs exactly its surcharge |
| Decorator.DoubleMochaDarkRoastWithWhip | decorator/src/lib.rs:415-423 | dark roast, two mochas and whip cost 149 and read "Dark Roast, Mocha, Mocha, Whip" |
| Decorator.SoyMochaHouseBlendWithWhip | decorator/src/lib.rs:425-433 | house blend, soy, mocha and whip cost 134 and read "House Blend, Soy, Mocha, Whip" |
| FactoryMethodPizza.Mark | factory_method/src/pizza.rs:35-49 | a step sets its own flag and leaves the other three as they were |
| FactoryMethodPizza.MarkIsIdempotent | factory_method/src/pizza.rs:35-49 | repeating a step changes nothing |
| FactoryMethodPizza.MarkAllReaches | factory_method/src/pizz_store.rs:4-11 | after a run of steps, a flag is set exactly when it was set before or its step was run |
| FactoryMethodPizza.DefaultRecipe | factory_method/src/ny_style_pizza_store.rs:23-119 | every NY struct has "NY Style Sauce and Cheese Pizza", "Thin Crust Dough", "Marinara Sauce" and "Grated Reggiano Cheese"; the mock pizza (pizza.rs:58-68) has "Mock Pizza", "Mock Dough", "Mock Sauce" and the topping "Mock Topping" |
| FactoryMethodPizza.NyStyleRecipesAgree | factory_method/src/ny_style_pizza_store.rs:23-119 | any two NY pizzas have the same recipe (name, dough, sauce, toppings), and it differs from the mock pizza's |
| FactoryMethodPizza.Pizza.Default | factory_method/src/pizza.rs:58-68 | a new pizza has its struct's default recipe and an all-false status |
| FactoryMethodPizza.Pizza.Prepare | factory_method/src/pizza.rs:35-37 | sets is_prepared and nothing else |
| FactoryMethodPizza.Pizza.Bake | factory_method/src/pizza.rs:39-41 | sets is_baked and nothing else |
| FactoryMethodPizza.Pizza.Cut | factory_method/src/pizza.rs:43-45 | sets is_cut and nothing else |
| FactoryMethodPizza.Pizza.Package | factory_method/src/pizza.rs:47-49 | sets is_packaged and nothing else |
| FactoryMethodStore.CreatedKind | factory_method/src/ny_style_pizza_store.rs:9-16 | the NY store maps each pizza type to the NY struct named for that type (total, one per type); the mock store always picks the mock pizza |
| FactoryMethodStore.OrderedIsComplete | factory_method/src/pizz_store.rs:28-38 | running prepare, bake, cut and package on a default status sets all four flags |
| FactoryMethodStore.CreatePizza | factory_method/src/pizz_store.rs:18-22 | a fresh pizza of the chosen struct with every flag false |
| FactoryMethodStore.OrderPizza | factory_method/src/pizz_store.rs:4-11 | a fresh pizza of the chosen struct after prepare, bake, cut and package in that order: all four flags set |
| AbstractFactoryPizza.Prepared | abstract_factory/src/pizzas/clam.rs:9-15 | prepare fills dough, sauce and cheese, and the clam slot only for the clam pizza; veggies and pepperoni are untouched |
| AbstractFactoryPizza.Pizza.Default | abstract_factory/src/pizzas/pizza.rs:13-25 | a new pizza has an empty name, is not baked, not cut, not packaged, and has every slot empty |
| AbstractFactoryPizza.Pizza.Prepare | abstract_factory/src/pizzas/cheese.rs:9-14 | fills the slots of its struct as `Prepared` says; the status is unchanged |
| AbstractFactoryPizza.Pizza.Bake | abstract_factory/src/pizzas/pizza.rs:52-54 | sets is_baked; nothing else changes |
| AbstractFactoryPizza.Pizza.Cut | abstract_factory/src/pizzas/pizza.rs:56-58 | sets the cut to Some(Slice) whatever it was; nothing else changes |
| AbstractFactoryPizza.Pizza.Package | abstract_factory/src/pizzas/pizza.rs:60-62 | sets is_packaged; nothing else changes |
| AbstractFactoryStore.CreatedKind | abstract_factory/src/pizzas/store.rs:16-23 | the default store picks the struct whose variety is the one ordered (cheese or clam only); the mock store always picks cheese |
| AbstractFactoryStore.CreatePizza | abstract_factory/src/pizzas/store.rs:35-37 | a fresh pizza of the chosen struct, not baked, cut None, not packaged, no ingredients |
| AbstractFactoryStore.OrderPizza | abstract_factory/src/pizzas/store.rs:6-14 | a fresh pizza of the chosen struct, prepared, baked, cut into slices and packaged |

## Left out

- The draft machine in state/src/lib.rs is not modelled. It is superseded by the split state files and disagrees with them: it has no OutOfGumballs error, it resets counts to 0, and its sold-out handlers are `todo!()`.
- No machine object or constructor exists in the source. `Machine` only holds the current state. Its constructor accepts any state, and it attributes no initial-state or restocking rule to the code.
- GumballState.Dispense: on a zero-count sold state the source panics in debug builds and wraps to 4294967295 in release builds. The model excludes this input by precondition and does not model the release-build wrap.
- GumballState.SoldOutFrom: the panic on a nonzero count is a precondition, not a modelled outcome.
- `Box<dyn …>` dispatch, `&mut self` plumbing and `Debug` are represented by datatypes and pattern matching.
- Decorator.Cost: the source computes in `u64`. The model uses unbounded naturals, so it does not model overflow, which would need more than 10^17 wrappers.
- Decorator: `with_box` allocation and trait objects are represented by the recursive `Beverage` datatype. The description is a plain string.
- AbstractFactoryPizza.Pizza.Prepare: the ingredient-factory argument is dropped. Ingredients are opaque marker objects, so only whether a slot is filled is modelled, and the veggie list only by its length.
- AbstractFactoryStore: the veggie and pepperoni varieties reach `unimplemented!()` in the default `create_pizza`, so `Implemented` excludes them by precondition.
- `get_status` and `get_ingredients` are plain reads of the pizza's `status` and `ingredients` fields; `get_name` is `FactoryMethodPizza.Pizza.Name` and `get_variety` is `AbstractFactoryPizza.VarietyOf`. These are not given separate contracts.
- abstract_factory/src/ingredients.rs, regions/ny.rs and main.rs are not part of this model. Only the presence of the ingredients they produce matters here.
- observer, command and strategy are not part of this model. They are float formatting, shared-ownership counting and constant strings, with no transition logic.
- factory_method/src/lib.rs, pizza_store.rs and chicago_style_pizza_store.rs are drafts that reference types the shown pizza.rs does not define. They are not part of this model.
