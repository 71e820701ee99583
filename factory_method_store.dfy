/**
 * The pizza stores of factory_method/src/pizz_store.rs and
 * ny_style_pizza_store.rs: `create_pizza` picks a concrete pizza and
 * `order_pizza` runs the four preparation steps on it.
 */
module FactoryMethodStore {
  import opened FactoryMethodPizza

  /** The two stores: the test store and the New York store. */
  datatype Store = MockPizzaStore | NyStylePizzaStore

  /** The order in which `order_pizza` runs the steps. */
  const OrderStages: seq<Stage> := [PrepareStep, BakeStep, CutStep, PackageStep]

  /**
   * `create_pizza`'s choice of struct: the mock store ignores the type, the
   * New York store has one struct per pizza type.
   */
  function CreatedKind(store: Store, t: PizzaType): (k: PizzaKind)
    ensures store.MockPizzaStore? ==> k == MockPizza
    ensures store.NyStylePizzaStore? ==> k != MockPizza && NyStyleOf(k) == t
  {
    match store
    case MockPizzaStore => MockPizza
    case NyStylePizzaStore =>
      match t
      case Cheese => NyStyleCheesePizza
      case Veggie => NyStyleVeggiePizza
      case Clam => NyStyleClamPizza
      case Pepperoni => NyStylePepperoniPizza
  }

  /** The status of an ordered pizza has every flag set. */
  lemma OrderedIsComplete()
    ensures MarkAll(DefaultStatus, OrderStages) == Status(true, true, true, true)
  {
    forall stage ensures Reached(MarkAll(DefaultStatus, OrderStages), stage) {
      MarkAllReaches(DefaultStatus, OrderStages, stage);
    }
  }

  /** `create_pizza`: a fresh pizza of the chosen struct, nothing done yet. */
  method CreatePizza(store: Store, t: PizzaType) returns (p: Pizza)
    ensures fresh(p)
    ensures p.kind == CreatedKind(store, t) && p.recipe == DefaultRecipe(p.kind)
    ensures p.status == DefaultStatus
  {
    p := new Pizza.Default(CreatedKind(store, t));
  }

  /** `order_pizza`: create, then prepare, bake, cut and package, in that order. */
  method OrderPizza(store: Store, t: PizzaType) returns (p: Pizza)
    ensures fresh(p)
    ensures p.kind == CreatedKind(store, t) && p.recipe == DefaultRecipe(p.kind)
    ensures p.status == MarkAll(DefaultStatus, OrderStages)
    ensures p.status == Status(true, true, true, true)
  {
    p := CreatePizza(store, t);
    p.Prepare();
    p.Bake();
    p.Cut();
    p.Package();
    OrderedIsComplete();
  }
}
