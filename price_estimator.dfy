/** The `PriceCalculator` estimator widget: its own copy of the rate table (`PRICES`),
    the total it computes from the form fields, the page-count input clamp, and the
    rule that option changes recalculate only once a result has been shown. The
    600 ms delay before a calculation completes is modelled as an immediate step. */
module PriceEstimator {
  import opened Types

  /** The widget's `PRICES` table. */
  datatype Prices = Prices(monochrome: int, colored: int, none: int, comb: int, slide: int, tape: int, delivery: int)

  const PRICES := Prices(1, 2, 0, 5, 7, 3, 2)

  /** `PRICES.printing[printType]`. */
  function PrintingRate(printType: PrintColor): int {
    match printType
    case Monochrome => PRICES.monochrome
    case Colored => PRICES.colored
  }

  /** `PRICES.binding[binding]`. */
  function BindingFee(binding: Binding): int {
    match binding
    case NoBinding => PRICES.none
    case Comb => PRICES.comb
    case Slide => PRICES.slide
    case Tape => PRICES.tape
  }

  /** The total a calculation produces: printing + binding + delivery. */
  function EstimateTotal(pageCount: int, printType: PrintColor, binding: Binding, delivery: bool): (total: int)
    ensures total == pageCount * (if printType == Monochrome then 1 else 2)
                     + (match binding case NoBinding => 0 case Comb => 5 case Slide => 7 case Tape => 3)
                     + (if delivery then 2 else 0)
  {
    pageCount * PrintingRate(printType) + BindingFee(binding) + (if delivery then PRICES.delivery else 0)
  }

  /** `Math.max(1, parseInt(value) || 1)`, where `parsed` is `None` when `parseInt`
      gives NaN. */
  function ClampPageInput(parsed: Option<int>): (pages: int)
    ensures pages >= 1
    ensures parsed.Some? && parsed.value >= 1 ==> pages == parsed.value
    ensures parsed.None? || parsed.value < 1 ==> pages == 1
  {
    var n := if parsed.Some? && parsed.value != 0 then parsed.value else 1;
    if 1 > n then 1 else n
  }

  /** One line of the cost breakdown panel. */
  datatype Line = PrintingLine(pages: int, printType: PrintColor, amount: int)
                | BindingLine(binding: Binding, amount: int)
                | DeliveryLine(amount: int)

  function LinesTotal(lines: seq<Line>): int {
    if lines == [] then 0 else lines[0].amount + LinesTotal(lines[1..])
  }

  class Estimator {
    var pageCount: int
    var printType: PrintColor
    var binding: Binding
    var delivery: bool
    var totalPrice: int
    var showResults: bool
    var calculating: bool

    /** The page count is at least 1, no calculation is left pending, and a shown
        total is the total of the current options. */
    ghost predicate Valid()
      reads this
    {
      && pageCount >= 1
      && !calculating
      && (showResults ==> totalPrice == EstimateTotal(pageCount, printType, binding, delivery))
    }

    constructor ()
      ensures Valid()
      ensures pageCount == 1 && printType == Monochrome && binding == NoBinding && !delivery
      ensures totalPrice == 0 && !showResults && !calculating
    {
      pageCount, printType, binding, delivery := 1, Monochrome, NoBinding, false;
      totalPrice, showResults, calculating := 0, false, false;
    }

    /** `calculatePrice` (also what submitting the form does). */
    method CalculatePrice()
      requires pageCount >= 1
      modifies this
      ensures Valid() && showResults && !calculating
      ensures totalPrice == EstimateTotal(pageCount, printType, binding, delivery)
      ensures pageCount == old(pageCount) && printType == old(printType)
      ensures binding == old(binding) && delivery == old(delivery)
    {
      calculating := true;
      var printingCost := pageCount * PrintingRate(printType);
      var bindingCost := BindingFee(binding);
      var deliveryCost := if delivery then PRICES.delivery else 0;
      totalPrice := printingCost + bindingCost + deliveryCost;
      showResults := true;
      calculating := false;
    }

    /** The recalculation effect: it runs after an option changed, and only
        recalculates once results are shown. */
    method AutoRecalculate()
      requires pageCount >= 1 && !calculating
      modifies this
      ensures Valid() || !old(showResults)
      ensures showResults == old(showResults) && !calculating
      ensures pageCount == old(pageCount) && printType == old(printType)
      ensures binding == old(binding) && delivery == old(delivery)
      ensures old(showResults) ==> totalPrice == EstimateTotal(pageCount, printType, binding, delivery)
      ensures !old(showResults) ==> totalPrice == old(totalPrice)
    {
      if showResults {
        CalculatePrice();
      }
    }

    /** The page-count input's change handler. */
    method SetPageCount(parsed: Option<int>)
      requires Valid()
      modifies this
      ensures Valid()
      ensures pageCount == ClampPageInput(parsed)
      ensures printType == old(printType) && binding == old(binding) && delivery == old(delivery)
      ensures showResults == old(showResults) && (!showResults ==> totalPrice == old(totalPrice))
    {
      var n := ClampPageInput(parsed);
      if n != pageCount {
        pageCount := n;
        AutoRecalculate();
      }
    }

    method SetPrintType(t: PrintColor)
      requires Valid()
      modifies this
      ensures Valid() && printType == t
      ensures pageCount == old(pageCount) && binding == old(binding) && delivery == old(delivery)
      ensures showResults == old(showResults) && (!showResults ==> totalPrice == old(totalPrice))
    {
      if t != printType {
        printType := t;
        AutoRecalculate();
      }
    }

    method SetBinding(b: Binding)
      requires Valid()
      modifies this
      ensures Valid() && binding == b
      ensures pageCount == old(pageCount) && printType == old(printType) && delivery == old(delivery)
      ensures showResults == old(showResults) && (!showResults ==> totalPrice == old(totalPrice))
    {
      if b != binding {
        binding := b;
        AutoRecalculate();
      }
    }

    method SetDelivery(d: bool)
      requires Valid()
      modifies this
      ensures Valid() && delivery == d
      ensures pageCount == old(pageCount) && printType == old(printType) && binding == old(binding)
      ensures showResults == old(showResults) && (!showResults ==> totalPrice == old(totalPrice))
    {
      if d != delivery {
        delivery := d;
        AutoRecalculate();
      }
    }

    /** The lines of the breakdown panel: none until results are shown; then a
        printing line, a binding line, and a delivery line only with delivery. */
    function BreakdownLines(): (lines: seq<Line>)
      reads this
      ensures !showResults ==> lines == []
      ensures showResults ==> 2 <= |lines| <= 3 && lines[0].PrintingLine? && lines[1].BindingLine?
      ensures showResults ==> (|lines| == 3 <==> delivery)
      ensures Valid() && showResults ==> LinesTotal(lines) == totalPrice
    {
      if !showResults then []
      else
        var lines := [PrintingLine(pageCount, printType, pageCount * PrintingRate(printType)),
                      BindingLine(binding, BindingFee(binding))]
                     + (if delivery then [DeliveryLine(PRICES.delivery)] else []);
        assert LinesTotal(lines) == lines[0].amount + lines[1].amount + LinesTotal(lines[2..]);
        lines
    }
  }
}
