/** The `usePriceCalculator` hook: a fixed rate table and the price breakdown
    computed from it. The hook keeps the table in state that is never updated,
    so every operation reads `DEFAULT_PRICE_CONFIG`. */
module Pricing {
  import opened Types

  /** `PriceConfig`: per-page rates, binding fees and the delivery fee. */
  datatype PriceConfig = PriceConfig(
    monochrome: int,
    colored: int,
    bindingNone: int,
    bindingComb: int,
    bindingSlide: int,
    bindingTape: int,
    campusDelivery: int)

  /** GHC 1 per monochrome page, 2 per colored page; bindings 0/5/7/3; delivery 2. */
  const DEFAULT_PRICE_CONFIG := PriceConfig(1, 2, 0, 5, 7, 3, 2)

  /** `getPricePerPage`: the per-page rate of the chosen colour. */
  function GetPricePerPage(printColor: PrintColor): (rate: int)
    ensures rate == if printColor == Monochrome then 1 else 2
  {
    match printColor
    case Monochrome => DEFAULT_PRICE_CONFIG.monochrome
    case Colored => DEFAULT_PRICE_CONFIG.colored
  }

  /** `getBindingPrice`: the flat fee of a binding method. */
  function GetBindingPrice(binding: Binding): (fee: int)
    ensures binding == NoBinding ==> fee == 0
    ensures binding == Comb ==> fee == 5
    ensures binding == Slide ==> fee == 7
    ensures binding == Tape ==> fee == 3
  {
    match binding
    case NoBinding => DEFAULT_PRICE_CONFIG.bindingNone
    case Comb => DEFAULT_PRICE_CONFIG.bindingComb
    case Slide => DEFAULT_PRICE_CONFIG.bindingSlide
    case Tape => DEFAULT_PRICE_CONFIG.bindingTape
  }

  /** `getDeliveryPrice`: the campus delivery fee. */
  function GetDeliveryPrice(): (fee: int)
    ensures fee == 2
  {
    DEFAULT_PRICE_CONFIG.campusDelivery
  }

  /** `calculatePriceBreakdown`. */
  function CalculatePriceBreakdown(pageCount: nat, printColor: PrintColor, binding: Binding, campusDelivery: bool): (r: PriceBreakdown)
    ensures r.totalCost == r.baseCost + r.bindingCost + r.deliveryCost
    ensures r.baseCost == pageCount * (if printColor == Monochrome then 1 else 2)
    ensures r.bindingCost == GetBindingPrice(binding) && r.bindingCost in {0, 3, 5, 7}
    ensures r.deliveryCost == (if campusDelivery then 2 else 0)
    ensures 0 <= r.baseCost <= r.totalCost
  {
    var baseCost := pageCount * (match printColor
                                 case Monochrome => DEFAULT_PRICE_CONFIG.monochrome
                                 case Colored => DEFAULT_PRICE_CONFIG.colored);
    var bindingCost := match binding
                       case NoBinding => DEFAULT_PRICE_CONFIG.bindingNone
                       case Comb => DEFAULT_PRICE_CONFIG.bindingComb
                       case Slide => DEFAULT_PRICE_CONFIG.bindingSlide
                       case Tape => DEFAULT_PRICE_CONFIG.bindingTape;
    var deliveryCost := if campusDelivery then DEFAULT_PRICE_CONFIG.campusDelivery else 0;
    PriceBreakdown(baseCost, bindingCost, deliveryCost, baseCost + bindingCost + deliveryCost)
  }

  /** `calculatePrice`: the total of the breakdown for the same arguments. */
  function CalculatePrice(pageCount: nat, printColor: PrintColor, binding: Binding, campusDelivery: bool): (total: int)
    ensures total == pageCount * GetPricePerPage(printColor) + GetBindingPrice(binding)
                     + (if campusDelivery then GetDeliveryPrice() else 0)
  {
    CalculatePriceBreakdown(pageCount, printColor, binding, campusDelivery).totalCost
  }

  /** The getters agree with the breakdown, item by item. */
  lemma GettersAgreeWithBreakdown(pageCount: nat, printColor: PrintColor, binding: Binding, campusDelivery: bool)
    ensures var r := CalculatePriceBreakdown(pageCount, printColor, binding, campusDelivery);
            && r.baseCost == GetPricePerPage(printColor) * pageCount
            && r.bindingCost == GetBindingPrice(binding)
            && r.deliveryCost == (if campusDelivery then GetDeliveryPrice() else 0)
            && CalculatePrice(pageCount, printColor, binding, campusDelivery) == r.totalCost
  {
  }

  /** More pages never lower the base cost, nor the total. */
  lemma BaseCostMonotone(n: nat, m: nat, printColor: PrintColor, binding: Binding, campusDelivery: bool)
    requires n <= m
    ensures CalculatePriceBreakdown(n, printColor, binding, campusDelivery).baseCost
            <= CalculatePriceBreakdown(m, printColor, binding, campusDelivery).baseCost
    ensures CalculatePrice(n, printColor, binding, campusDelivery) <= CalculatePrice(m, printColor, binding, campusDelivery)
  {
  }

  /** A colored page never costs less than a monochrome one. */
  lemma ColoredNotCheaper(n: nat, binding: Binding, campusDelivery: bool)
    ensures CalculatePrice(n, Monochrome, binding, campusDelivery) <= CalculatePrice(n, Colored, binding, campusDelivery)
  {
  }

  /** The binding fee depends on the binding method only. */
  lemma BindingIndependent(n1: nat, c1: PrintColor, d1: bool, n2: nat, c2: PrintColor, d2: bool, binding: Binding)
    ensures CalculatePriceBreakdown(n1, c1, binding, d1).bindingCost == CalculatePriceBreakdown(n2, c2, binding, d2).bindingCost
  {
  }

  /** Ten monochrome pages, no binding, no delivery cost 10. */
  lemma ScenarioTenMonochromePages()
    ensures CalculatePriceBreakdown(10, Monochrome, NoBinding, false) == PriceBreakdown(10, 0, 0, 10)
  {
  }
}
