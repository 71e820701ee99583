/**
 * The beverage decorator of decorator/src/lib.rs: a base beverage wrapped in
 * any number of condiments, each wrapper adding a surcharge to the cost and
 * its name to the description.
 */
module Decorator {

  /** The base beverages: `Stub`, `Espresso`, `HouseBlend`, `DarkRoast`, `Decaf`. */
  datatype Base = Stub | Espresso | HouseBlend | DarkRoast | Decaf

  /** The condiment wrappers: `Mocha`, `Soy`, `Whip`, `SteamedMilk`. */
  datatype Condiment = Mocha | Soy | Whip | SteamedMilk

  /** A `Box<dyn Beverage>`: a base beverage, or a condiment around another beverage. */
  datatype Beverage = Plain(base: Base) | Wrapped(inner: Beverage, condiment: Condiment)

  function BaseDescription(b: Base): string
  {
    match b
    case Stub => "Stub"
    case Espresso => "Espresso"
    case HouseBlend => "House Blend"
    case DarkRoast => "Dark Roast"
    case Decaf => "Decaf"
  }

  function BaseCost(b: Base): nat
  {
    match b
    case Stub => 0
    case Espresso => 199
    case HouseBlend => 89
    case DarkRoast => 99
    case Decaf => 105
  }

  function CondimentName(c: Condiment): string
  {
    match c
    case Mocha => "Mocha"
    case Soy => "Soy"
    case Whip => "Whip"
    case SteamedMilk => "Steamed Milk"
  }

  function Surcharge(c: Condiment): nat
  {
    match c
    case Mocha => 20
    case Soy => 15
    case Whip => 10
    case SteamedMilk => 10
  }

  /** `get_description`: each wrapper appends ", <name>" to what it wraps. */
  function Description(b: Beverage): (d: string)
    ensures BaseDescription(BaseOf(b)) <= d
  {
    match b
    case Plain(base) => BaseDescription(base)
    case Wrapped(inner, c) => Description(inner) + ", " + CondimentName(c)
  }

  /** `cost`: each wrapper adds its surcharge to what it wraps. */
  function Cost(b: Beverage): (c: nat)
    ensures c >= BaseCost(BaseOf(b)) + 10 * |Condiments(b)|
  {
    match b
    case Plain(base) => BaseCost(base)
    case Wrapped(inner, c) => Cost(inner) + Surcharge(c)
  }

  // ---------------------------------------------------------------------
  // A flat view of a beverage: its base and its condiments in wrap order.
  // ---------------------------------------------------------------------

  /** The base beverage at the centre of all wrappers. */
  function BaseOf(b: Beverage): Base
  {
    match b
    case Plain(base) => base
    case Wrapped(inner, _) => BaseOf(inner)
  }

  /** The condiments, innermost (first applied) first. */
  function Condiments(b: Beverage): seq<Condiment>
  {
    match b
    case Plain(_) => []
    case Wrapped(inner, c) => Condiments(inner) + [c]
  }

  /** Wrap `base` in `cs`, first condiment innermost, as a caller chaining `with_box` does. */
  function Wrap(base: Base, cs: seq<Condiment>): (b: Beverage)
    ensures b.Plain? <==> cs == []
    ensures cs != [] ==> b.condiment == cs[|cs| - 1]
    decreases |cs|
  {
    if cs == [] then Plain(base)
    else Wrapped(Wrap(base, cs[..|cs| - 1]), cs[|cs| - 1])
  }

  /** The sum of the surcharges of `cs`. */
  function Surcharges(cs: seq<Condiment>): nat
  {
    if cs == [] then 0 else Surcharge(cs[0]) + Surcharges(cs[1..])
  }

  /** ", <name>" for each condiment of `cs`, in order. */
  function Suffixes(cs: seq<Condiment>): string
  {
    if cs == [] then "" else ", " + CondimentName(cs[0]) + Suffixes(cs[1..])
  }

  lemma {:induction false} SurchargesAppend(cs: seq<Condiment>, c: Condiment)
    ensures Surcharges(cs + [c]) == Surcharges(cs) + Surcharge(c)
  {
    if cs != [] {
      assert (cs + [c])[1..] == cs[1..] + [c];
      SurchargesAppend(cs[1..], c);
    }
  }

  lemma {:induction false} SuffixesAppend(cs: seq<Condiment>, c: Condiment)
    ensures Suffixes(cs + [c]) == Suffixes(cs) + ", " + CondimentName(c)
  {
    if cs == [] {
      assert Suffixes([c]) == ", " + CondimentName(c) + Suffixes([]);
    } else {
      assert (cs + [c])[1..] == cs[1..] + [c];
      SuffixesAppend(cs[1..], c);
    }
  }

  /** The total cost is the base cost plus every condiment's surcharge. */
  lemma {:induction false} CostIsBasePlusSurcharges(b: Beverage)
    ensures Cost(b) == BaseCost(BaseOf(b)) + Surcharges(Condiments(b))
  {
    match b
    case Plain(_) =>
    case Wrapped(inner, c) =>
      CostIsBasePlusSurcharges(inner);
      SurchargesAppend(Condiments(inner), c);
  }

  /** The description is the base name followed by ", <condiment>" per wrapper, in wrap order. */
  lemma {:induction false} DescriptionIsBaseThenCondiments(b: Beverage)
    ensures Description(b) == BaseDescription(BaseOf(b)) + Suffixes(Condiments(b))
  {
    match b
    case Plain(_) =>
    case Wrapped(inner, c) =>
      DescriptionIsBaseThenCondiments(inner);
      SuffixesAppend(Condiments(inner), c);
  }

  /** Wrapping a base in a list of condiments and reading them back gives that list. */
  lemma {:induction false} WrapThenView(base: Base, cs: seq<Condiment>)
    ensures BaseOf(Wrap(base, cs)) == base
    ensures Condiments(Wrap(base, cs)) == cs
    decreases |cs|
  {
    if cs != [] {
      WrapThenView(base, cs[..|cs| - 1]);
    }
  }

  /** Every beverage is its base wrapped in its condiments. */
  lemma {:induction false} ViewThenWrap(b: Beverage)
    ensures Wrap(BaseOf(b), Condiments(b)) == b
  {
    match b
    case Plain(_) =>
    case Wrapped(inner, c) =>
      ViewThenWrap(inner);
      var cs := Condiments(inner) + [c];
      assert cs[..|cs| - 1] == Condiments(inner);
  }

  /** The fixed name and price of each base beverage. */
  lemma BaseBeverages()
    ensures Description(Plain(Stub)) == "Stub" && Cost(Plain(Stub)) == 0
    ensures Description(Plain(Espresso)) == "Espresso" && Cost(Plain(Espresso)) == 199
    ensures Description(Plain(HouseBlend)) == "House Blend" && Cost(Plain(HouseBlend)) == 89
    ensures Description(Plain(DarkRoast)) == "Dark Roast" && Cost(Plain(DarkRoast)) == 99
    ensures Description(Plain(Decaf)) == "Decaf" && Cost(Plain(Decaf)) == 105
  {
  }

  /** Each condiment adds its own surcharge and name to whatever it wraps. */
  lemma CondimentsDecorate(b: Beverage)
    ensures Cost(Wrapped(b, Mocha)) == Cost(b) + 20 && Description(Wrapped(b, Mocha)) == Description(b) + ", Mocha"
    ensures Cost(Wrapped(b, Soy)) == Cost(b) + 15 && Description(Wrapped(b, Soy)) == Description(b) + ", Soy"
    ensures Cost(Wrapped(b, Whip)) == Cost(b) + 10 && Description(Wrapped(b, Whip)) == Description(b) + ", Whip"
    ensures Cost(Wrapped(b, SteamedMilk)) == Cost(b) + 10
    ensures Description(Wrapped(b, SteamedMilk)) == Description(b) + ", Steamed Milk"
  {
    var d := Description(b);
    assert Description(Wrapped(b, Mocha)) == d + ", " + "Mocha";
    assert Description(Wrapped(b, Soy)) == d + ", " + "Soy";
    assert Description(Wrapped(b, Whip)) == d + ", " + "Whip";
    assert Description(Wrapped(b, SteamedMilk)) == d + ", " + "Steamed Milk";
  }

  /** Around the zero-cost `Stub`, a condiment costs exactly its surcharge. */
  lemma StubIsNeutral(c: Condiment)
    ensures Cost(Wrapped(Plain(Stub), c)) == Surcharge(c)
    ensures Description(Wrapped(Plain(Stub), c)) == "Stub, " + CondimentName(c)
  {
  }

  /** The crate's test of a dark roast with two mochas and whip. */
  lemma DoubleMochaDarkRoastWithWhip()
    ensures var b := Wrapped(Wrapped(Wrapped(Plain(DarkRoast), Mocha), Mocha), Whip);
      Cost(b) == 149 && Description(b) == "Dark Roast, Mocha, Mocha, Whip"
  {
    var once := Wrapped(Plain(DarkRoast), Mocha);
    assert Description(once) == "Dark Roast, Mocha";
    assert Description(Wrapped(once, Mocha)) == "Dark Roast, Mocha, Mocha";
  }

  /** The crate's test of a soy-mocha house blend with whip. */
  lemma SoyMochaHouseBlendWithWhip()
    ensures var b := Wrapped(Wrapped(Wrapped(Plain(HouseBlend), Soy), Mocha), Whip);
      Cost(b) == 134 && Description(b) == "House Blend, Soy, Mocha, Whip"
  {
    var once := Wrapped(Plain(HouseBlend), Soy);
    assert Description(once) == "House Blend, Soy";
    assert Description(Wrapped(once, Mocha)) == "House Blend, Soy, Mocha";
  }
}
