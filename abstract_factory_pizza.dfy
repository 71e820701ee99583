/**
 * The pizzas of abstract_factory/src/pizzas: a status (baked, cut, packaged)
 * and ingredient slots, both updated in place. The ingredients are opaque
 * marker objects, so a slot is modelled by whether it is filled (and the
 * veggie list by its length).
 */
module AbstractFactoryPizza {
  import opened Wrappers

  /** `Variety`: what a customer can order. */
  datatype Variety = Cheese | Veggie | Clam | Pepperoni

  /** `Cut`; its `Default` is `Slice`. */
  datatype Cut = Slice | Square | Spiral

  const DefaultCut: Cut := Slice

  /** `Status`; its `Default` is not baked, not cut, not packaged. */
  datatype Status = Status(isBaked: bool, cut: Option<Cut>, isPackaged: bool)

  const DefaultStatus := Status(false, None, false)

  /** `Ingredients`, one presence flag per optional slot and the number of veggies. */
  datatype Ingredients = Ingredients(
    dough: bool, sauce: bool, cheese: bool, veggies: nat, pepperoni: bool, clam: bool)

  /** `Ingredients::default()`: every slot empty. */
  const NoIngredients := Ingredients(false, false, false, 0, false, false)

  /** The two pizza structs of the crate, `Cheese` and `Clam`. */
  datatype Kind = CheesePizza | ClamPizza

  /** `get_variety` of each struct. */
  function VarietyOf(k: Kind): Variety
  {
    match k
    case CheesePizza => Cheese
    case ClamPizza => Clam
  }

  /**
   * The slots after `prepare`: both structs fill dough, sauce and cheese,
   * the clam pizza also the clam; veggies and pepperoni are left alone.
   */
  function Prepared(k: Kind, ing: Ingredients): (r: Ingredients)
    ensures r.dough && r.sauce && r.cheese
    ensures r.clam <==> ing.clam || k == ClamPizza
    ensures r.veggies == ing.veggies && r.pepperoni == ing.pepperoni
  {
    match k
    case CheesePizza => ing.(dough := true, sauce := true, cheese := true)
    case ClamPizza => ing.(dough := true, sauce := true, cheese := true, clam := true)
  }

  /** A pizza struct with its `Data`; only status and ingredients change. */
  class Pizza {
    const kind: Kind
    const name: string
    var status: Status
    var ingredients: Ingredients

    /** `Default::default()` of the struct `kind`: empty name, default status, no ingredients. */
    constructor Default(kind: Kind)
      ensures this.kind == kind && name == ""
      ensures status == DefaultStatus && ingredients == NoIngredients
    {
      this.kind := kind;
      name := "";
      status := DefaultStatus;
      ingredients := NoIngredients;
    }

    /** `get_variety` */
    function GetVariety(): Variety
    {
      VarietyOf(kind)
    }

    /** `prepare`: fill the slots this struct uses, from the store's ingredient factory. */
    method Prepare()
      modifies this
      ensures ingredients == Prepared(kind, old(ingredients))
      ensures status == old(status)
    {
      ingredients := ingredients.(dough := true, sauce := true, cheese := true);
      if kind == ClamPizza {
        ingredients := ingredients.(clam := true);
      }
    }

    /** `bake` */
    method Bake()
      modifies this
      ensures status == old(status).(isBaked := true)
      ensures ingredients == old(ingredients)
    {
      status := status.(isBaked := true);
    }

    /** `cut`: always into slices, whatever the previous cut. */
    method Cut()
      modifies this
      ensures status == old(status).(cut := Some(Slice))
      ensures ingredients == old(ingredients)
    {
      status := status.(cut := Some(Slice));
    }

    /** `package` */
    method Package()
      modifies this
      ensures status == old(status).(isPackaged := true)
      ensures ingredients == old(ingredients)
    {
      status := status.(isPackaged := true);
    }
  }
}
