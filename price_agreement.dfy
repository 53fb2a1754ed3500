/** The rate table appears three times in the front end: in the `usePriceCalculator`
    hook, in the receipt's cost recomputation and in the estimator widget. These lemmas
    state that the three copies price every order alike. */
module PriceAgreement {
  import opened Types
  import Pricing
  import Receipt
  import PriceEstimator
  import PrintingForm

  /** The estimator's table and the hook's default table hold the same rates. */
  lemma TablesAgree()
    ensures PriceEstimator.PRICES.monochrome == Pricing.DEFAULT_PRICE_CONFIG.monochrome
    ensures PriceEstimator.PRICES.colored == Pricing.DEFAULT_PRICE_CONFIG.colored
    ensures PriceEstimator.PRICES.none == Pricing.DEFAULT_PRICE_CONFIG.bindingNone
    ensures PriceEstimator.PRICES.comb == Pricing.DEFAULT_PRICE_CONFIG.bindingComb
    ensures PriceEstimator.PRICES.slide == Pricing.DEFAULT_PRICE_CONFIG.bindingSlide
    ensures PriceEstimator.PRICES.tape == Pricing.DEFAULT_PRICE_CONFIG.bindingTape
    ensures PriceEstimator.PRICES.delivery == Pricing.DEFAULT_PRICE_CONFIG.campusDelivery
  {
  }

  /** The estimator's total is the hook's total for every page count and option. */
  lemma EstimatorAgreesWithHook(pageCount: nat, printColor: PrintColor, binding: Binding, campusDelivery: bool)
    ensures PriceEstimator.EstimateTotal(pageCount, printColor, binding, campusDelivery)
            == Pricing.CalculatePrice(pageCount, printColor, binding, campusDelivery)
  {
  }

  /** The receipt's three cost lines are the hook's breakdown of the same order (every
      binding the type admits is one the receipt's table knows). */
  lemma ReceiptAgreesWithHook(order: PrintOrder, orderNumber: string)
    ensures var r := Receipt.GenerateReceiptData(order, orderNumber);
            var b := Pricing.CalculatePriceBreakdown(order.pageCount, order.printColor, order.binding, order.campusDelivery);
            r.baseCost == b.baseCost && r.bindingCost == b.bindingCost && r.deliveryCost == b.deliveryCost
  {
  }

  /** For an order the printing form composed from the hook's breakdown of its own
      options, the receipt's copied total is the sum of its cost lines. (The receipt
      does not check this: for an order priced any other way the lines and the total
      may disagree.) */
  lemma ReceiptBalancesForHookPricedOrder(info: PrintingForm.FileInfo, printColor: PrintColor, binding: Binding,
                                          campusDelivery: bool, orderNumber: string)
    ensures var breakdown := Pricing.CalculatePriceBreakdown(info.pageCount, printColor, binding, campusDelivery);
            var order := PrintingForm.ComposeOrder(info, printColor, binding, campusDelivery, breakdown);
            var r := Receipt.GenerateReceiptData(order, orderNumber);
            r.totalPrice == r.baseCost + r.bindingCost + r.deliveryCost
  {
    var breakdown := Pricing.CalculatePriceBreakdown(info.pageCount, printColor, binding, campusDelivery);
    var order := PrintingForm.ComposeOrder(info, printColor, binding, campusDelivery, breakdown);
    ReceiptAgreesWithHook(order, orderNumber);
  }
}
