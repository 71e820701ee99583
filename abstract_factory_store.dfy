/**
 * The store of abstract_factory/src/pizzas/store.rs: `create_pizza` picks a
 * pizza struct for the variety and `order_pizza` prepares it with the
 * store's ingredient factory, then bakes, cuts and packages it.
 */
module AbstractFactoryStore {
  import opened Wrappers
  import opened AbstractFactoryPizza

  /**
   * A store that keeps the trait's own `create_pizza` (the regional stores
   * do), or the test store that overrides it.
   */
  datatype Store = DefaultStore | MockPizzaStore

  /** The default `create_pizza` reaches `unimplemented!()` for veggie and pepperoni. */
  predicate Implemented(store: Store, v: Variety)
  {
    store.MockPizzaStore? || v == Cheese || v == Clam
  }

  /** `create_pizza`'s choice of struct. */
  function CreatedKind(store: Store, v: Variety): (k: Kind)
    requires Implemented(store, v)
    ensures store.DefaultStore? ==> VarietyOf(k) == v
    ensures store.MockPizzaStore? ==> k == CheesePizza
  {
    match store
    case MockPizzaStore => CheesePizza
    case DefaultStore => if v == Cheese then CheesePizza else ClamPizza
  }

  /** `create_pizza`: a fresh default pizza, not baked, not cut, not packaged, no ingredients. */
  method CreatePizza(store: Store, v: Variety) returns (p: Pizza)
    requires Implemented(store, v)
    ensures fresh(p)
    ensures p.kind == CreatedKind(store, v)
    ensures p.status == DefaultStatus && p.ingredients == NoIngredients
  {
    p := new Pizza.Default(CreatedKind(store, v));
  }

  /** `order_pizza`: create, then prepare, bake, cut and package, in that order. */
  method OrderPizza(store: Store, v: Variety) returns (p: Pizza)
    requires Implemented(store, v)
    ensures fresh(p)
    ensures p.kind == CreatedKind(store, v)
    ensures p.status == Status(true, Some(Slice), true)
    ensures p.ingredients == Prepared(p.kind, NoIngredients)
  {
    p := CreatePizza(store, v);
    p.Prepare();
    p.Bake();
    p.Cut();
    p.Package();
  }
}
