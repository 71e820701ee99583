/**
 * The pizza of factory_method/src/pizza.rs: fixed recipe data and a status of
 * four flags that the preparation steps set in place.
 */
module FactoryMethodPizza {

  /** `PizzaType`: what a customer can order. */
  datatype PizzaType = Cheese | Veggie | Clam | Pepperoni

  /** `PizzaStatus`: one flag per preparation step. */
  datatype Status = Status(isPrepared: bool, isBaked: bool, isCut: bool, isPackaged: bool)

  /** `PizzaStatus::default()`: nothing done yet. */
  const DefaultStatus := Status(false, false, false, false)

  /** The preparation steps, each setting one flag. */
  datatype Stage = PrepareStep | BakeStep | CutStep | PackageStep

  /** Whether `s` records `stage` as done. */
  function Reached(s: Status, stage: Stage): bool
  {
    match stage
    case PrepareStep => s.isPrepared
    case BakeStep => s.isBaked
    case CutStep => s.isCut
    case PackageStep => s.isPackaged
  }

  /** The status after one step: that step's flag set, every other flag as it was. */
  function Mark(s: Status, stage: Stage): (r: Status)
    ensures Reached(r, stage)
    ensures forall other :: other != stage ==> Reached(r, other) == Reached(s, other)
  {
    match stage
    case PrepareStep => s.(isPrepared := true)
    case BakeStep => s.(isBaked := true)
    case CutStep => s.(isCut := true)
    case PackageStep => s.(isPackaged := true)
  }

  /** The status after the steps of `stages`, first step first. */
  function MarkAll(s: Status, stages: seq<Stage>): Status
    decreases |stages|
  {
    if stages == [] then s else MarkAll(Mark(s, stages[0]), stages[1..])
  }

  /** Every step assigns `true`, so repeating it changes nothing. */
  lemma MarkIsIdempotent(s: Status, stage: Stage)
    ensures Mark(Mark(s, stage), stage) == Mark(s, stage)
  {
  }

  /** After a run of steps a flag is set exactly when it was set before or its step was run. */
  lemma {:induction false} MarkAllReaches(s: Status, stages: seq<Stage>, stage: Stage)
    ensures Reached(MarkAll(s, stages), stage) <==> Reached(s, stage) || stage in stages
    decreases |stages|
  {
    if stages != [] {
      MarkAllReaches(Mark(s, stages[0]), stages[1..], stage);
      assert stage in stages <==> stage == stages[0] || stage in stages[1..];
    }
  }

  /** The concrete pizza structs of the crate. */
  datatype PizzaKind =
    | MockPizza
    | NyStyleCheesePizza
    | NyStyleVeggiePizza
    | NyStyleClamPizza
    | NyStylePepperoniPizza

  /** The `PizzaData` fields that no step changes. */
  datatype Recipe = Recipe(name: string, dough: string, sauce: string, toppings: seq<string>)

  /** The `Default` recipe of each concrete pizza. */
  function DefaultRecipe(kind: PizzaKind): (r: Recipe)
    ensures kind == MockPizza ==>
      r.name == "Mock Pizza" && r.dough == "Mock Dough" && r.sauce == "Mock Sauce" && r.toppings == ["Mock Topping"]
    ensures kind != MockPizza ==>
      && r.name == "NY Style Sauce and Cheese Pizza" && r.dough == "Thin Crust Dough"
      && r.sauce == "Marinara Sauce" && r.toppings == ["Grated Reggiano Cheese"]
  {
    match kind
    case MockPizza => Recipe("Mock Pizza", "Mock Dough", "Mock Sauce", ["Mock Topping"])
    case _ => Recipe("NY Style Sauce and Cheese Pizza", "Thin Crust Dough", "Marinara Sauce",
                     ["Grated Reggiano Cheese"])
  }

  /** The pizza type a NY-style struct is named for; the mock pizza serves none. */
  function NyStyleOf(kind: PizzaKind): (t: PizzaType)
    requires kind != MockPizza
  {
    match kind
    case NyStyleCheesePizza => Cheese
    case NyStyleVeggiePizza => Veggie
    case NyStyleClamPizza => Clam
    case NyStylePepperoniPizza => Pepperoni
  }

  /** Every NY-style pizza, whatever its type, has the same recipe, distinct from the mock's. */
  lemma NyStyleRecipesAgree(kind: PizzaKind, other: PizzaKind)
    requires kind != MockPizza && other != MockPizza
    ensures DefaultRecipe(kind) == DefaultRecipe(other)
    ensures DefaultRecipe(kind) != DefaultRecipe(MockPizza)
  {
  }

  /** A pizza: its recipe is fixed at construction, its status changes in place. */
  class Pizza {
    const kind: PizzaKind
    const recipe: Recipe
    var status: Status

    /** `Default::default()` of the concrete struct `kind`. */
    constructor Default(kind: PizzaKind)
      ensures this.kind == kind && recipe == DefaultRecipe(kind)
      ensures status == DefaultStatus
    {
      this.kind := kind;
      recipe := DefaultRecipe(kind);
      status := DefaultStatus;
    }

    /** `get_name` */
    function Name(): string
    {
      recipe.name
    }

    method Prepare()
      modifies this
      ensures status == Mark(old(status), PrepareStep)
    {
      status := status.(isPrepared := true);
    }

    method Bake()
      modifies this
      ensures status == Mark(old(status), BakeStep)
    {
      status := status.(isBaked := true);
    }

    method Cut()
      modifies this
      ensures status == Mark(old(status), CutStep)
    {
      status := status.(isCut := true);
    }

    method Package()
      modifies this
      ensures status == Mark(old(status), PackageStep)
    {
      status := status.(isPackaged := true);
    }
  }
}
