/** Pizza prices: a crust wrapped in any chain of topping decorators. */
module Decorator {

  /** A pizza: one of the two concrete crusts, or a topping decorator around a pizza. */
  datatype Pizza =
    | HandTossed
    | ThinCrust
    | Mushroom(pizza: Pizza)
    | Cheese(pizza: Pizza)

  const HandTossedCost := 100
  const ThinCrustCost := 150
  const MushroomSurcharge := 10
  const CheeseSurcharge := 20

  /** `cost()`: a crust's price, or the wrapped pizza's cost plus the topping's surcharge. */
  function Cost(p: Pizza): (c: int)
    ensures c >= HandTossedCost
    ensures p.Mushroom? ==> c > Cost(p.pizza)
    ensures p.Cheese? ==> c > Cost(p.pizza)
  {
    match p
    case HandTossed => HandTossedCost
    case ThinCrust => ThinCrustCost
    case Mushroom(inner) => Cost(inner) + MushroomSurcharge
    case Cheese(inner) => Cost(inner) + CheeseSurcharge
  }

  /** The crust at the bottom of the decorator chain. */
  function Crust(p: Pizza): (b: Pizza)
    ensures b.HandTossed? || b.ThinCrust?
  {
    match p
    case Mushroom(inner) => Crust(inner)
    case Cheese(inner) => Crust(inner)
    case _ => p
  }

  /** How many Mushroom decorators the chain holds. */
  function Mushrooms(p: Pizza): nat {
    match p
    case Mushroom(inner) => Mushrooms(inner) + 1
    case Cheese(inner) => Mushrooms(inner)
    case _ => 0
  }

  /** How many Cheese decorators the chain holds. */
  function Cheeses(p: Pizza): nat {
    match p
    case Mushroom(inner) => Cheeses(inner)
    case Cheese(inner) => Cheeses(inner) + 1
    case _ => 0
  }

  /** The price of any decorated pizza is its crust's price plus a fixed surcharge per topping. */
  lemma {:induction false} CostIsCrustPlusToppings(p: Pizza)
    ensures Cost(p) == Cost(Crust(p)) + MushroomSurcharge * Mushrooms(p) + CheeseSurcharge * Cheeses(p)
  {
    match p
    case HandTossed =>
    case ThinCrust =>
    case Mushroom(inner) => CostIsCrustPlusToppings(inner);
    case Cheese(inner) => CostIsCrustPlusToppings(inner);
  }

  /** The order in which toppings are added does not change the price. */
  lemma ToppingOrderIrrelevant(p: Pizza, q: Pizza)
    requires Crust(p) == Crust(q) && Mushrooms(p) == Mushrooms(q) && Cheeses(p) == Cheeses(q)
    ensures Cost(p) == Cost(q)
  {
    CostIsCrustPlusToppings(p);
    CostIsCrustPlusToppings(q);
  }

  /** The demonstration: Thin Crust, then Mushroom, then Cheese. */
  lemma DemoCosts()
    ensures Cost(ThinCrust) == 150
    ensures Cost(Mushroom(ThinCrust)) == 160
    ensures Cost(Cheese(Mushroom(ThinCrust))) == 180
  {
  }
}
