/** `generateReceiptData`: the receipt record built from an order. It keeps its own
    copy of the rate table, recomputes the three cost items from it, and copies the
    order's total rather than recomputing it. */
module Receipt {
  import opened Types
  import Text

  /** `ReceiptData` without the date text (the clock is not part of this model). */
  datatype ReceiptData = ReceiptData(
    orderNumber: string,
    fileName: string,
    pageCount: nat,
    printColor: string,
    binding: string,
    campusDelivery: bool,
    baseCost: int,
    bindingCost: int,
    deliveryCost: int,
    totalPrice: int,
    userInfo: Option<UserInfo>)

  /** `formatBinding`: 'none' reads "No Binding"; otherwise the name with its first
      character upper-cased, followed by " Binding". */
  function FormatBinding(binding: string): (text: string)
    ensures binding == "none" ==> text == "No Binding"
    ensures binding != "none" ==> |text| == |binding| + 8 && text[|binding|..] == " Binding"
    ensures binding != "none" && binding != [] ==> text[0] == Text.UpperChar(binding[0]) && text[1..|binding|] == binding[1..]
  {
    if binding == "none" then "No Binding"
    else (if binding == [] then [] else [Text.UpperChar(binding[0])] + binding[1..]) + " Binding"
  }

  /** `bindingCostMap[binding] || 0`, for the binding names callers pass: the four known
      names have a fee, and any other name costs 0. Inherited object members, which
      the lookup would also find, are outside the model. */
  function BindingCostLookup(binding: string): (fee: int)
    ensures fee in {0, 3, 5, 7}
    ensures binding !in {"none", "comb", "slide", "tape"} ==> fee == 0
  {
    var bindingCostMap := map["none" := 0, "comb" := 5, "slide" := 7, "tape" := 3];
    if binding in bindingCostMap then bindingCostMap[binding] else 0
  }

  /** The receipt's base cost: 1 per page for monochrome, 2 per page for anything else. */
  function ReceiptBaseCost(printColor: PrintColor, pageCount: nat): (cost: int)
    ensures printColor == Monochrome ==> cost == pageCount
    ensures printColor != Monochrome ==> cost == 2 * pageCount
  {
    if printColor == Monochrome then pageCount * 1 else pageCount * 2
  }

  /** `generateReceiptData(order, orderNumber)`. */
  function GenerateReceiptData(order: PrintOrder, orderNumber: string): (r: ReceiptData)
    ensures r.orderNumber == orderNumber && r.pageCount == order.pageCount
    ensures r.campusDelivery == order.campusDelivery && r.userInfo == order.userInfo
    ensures r.fileName == if order.fileName == "" then "Unknown Document" else order.fileName
    ensures r.printColor == if order.printColor == Monochrome then "Monochrome" else "Colored"
    ensures r.binding == FormatBinding(BindingName(order.binding))
    ensures r.baseCost == ReceiptBaseCost(order.printColor, order.pageCount)
    ensures r.bindingCost == BindingCostLookup(BindingName(order.binding))
    ensures r.deliveryCost == if order.campusDelivery then 2 else 0
    ensures r.totalPrice == order.totalPrice
  {
    var baseCost := ReceiptBaseCost(order.printColor, order.pageCount);
    var bindingCost := BindingCostLookup(BindingName(order.binding));
    var deliveryCost := if order.campusDelivery then 2 else 0;
    ReceiptData(
      orderNumber,
      if order.fileName == "" then "Unknown Document" else order.fileName,
      order.pageCount,
      if order.printColor == Monochrome then "Monochrome" else "Colored",
      FormatBinding(BindingName(order.binding)),
      order.campusDelivery,
      baseCost,
      bindingCost,
      deliveryCost,
      order.totalPrice,
      order.userInfo)
  }

  /** "comb" reads "Comb Binding" on a receipt. */
  lemma CombLabel()
    ensures FormatBinding(BindingName(Comb)) == "Comb Binding"
  {
    var b := BindingName(Comb);
    assert b[0] == 'c' && b != "none";
    assert Text.UpperChar('c') == 'C';
    assert FormatBinding(b) == ['C'] + b[1..] + " Binding";
  }

  /** The receipt's total is the order's, whatever the cost items add up to: an order
      whose stored total disagrees with its items keeps that total on the receipt. */
  lemma TotalNotRecomputed()
    ensures var order := PrintOrder("f1", "doc.pdf", 10, None, None, Monochrome, NoBinding, false, 25, None);
            var r := GenerateReceiptData(order, "PS0001");
            r.totalPrice == 25 && r.baseCost + r.bindingCost + r.deliveryCost == 10
  {
  }
}
