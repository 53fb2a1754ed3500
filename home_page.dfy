/** The `HomePage` flow: the printing form, then an order summary, then a confirmation
    screen, driven by two pieces of state — the current order and the "confirmed" flag.
    Confirming makes no server call. */
module HomePage {
  import opened Types
  import opened Text

  /** The three screens the page can render. */
  datatype View = FormView | SummaryView | ConfirmationView

  /** The screens the page's three render conditions select. */
  function RenderedViews(currentOrder: Option<PrintOrder>, orderConfirmed: bool): set<View>
  {
    (if currentOrder.None? && !orderConfirmed then {FormView} else {})
    + (if currentOrder.Some? && !orderConfirmed then {SummaryView} else {})
    + (if orderConfirmed then {ConfirmationView} else {})
  }

  /** Exactly one screen renders for every combination of the two pieces of state: the
      form iff there is no order and nothing is confirmed, the summary iff there is an
      order and nothing is confirmed, and the confirmation iff the order was confirmed. */
  lemma {:induction false} ExactlyOneView(currentOrder: Option<PrintOrder>, orderConfirmed: bool)
    ensures |RenderedViews(currentOrder, orderConfirmed)| == 1
    ensures FormView in RenderedViews(currentOrder, orderConfirmed) <==> currentOrder.None? && !orderConfirmed
    ensures SummaryView in RenderedViews(currentOrder, orderConfirmed) <==> currentOrder.Some? && !orderConfirmed
    ensures ConfirmationView in RenderedViews(currentOrder, orderConfirmed) <==> orderConfirmed
  {
    var views := RenderedViews(currentOrder, orderConfirmed);
    if orderConfirmed {
      assert views == {ConfirmationView};
    } else if currentOrder.Some? {
      assert views == {SummaryView};
    } else {
      assert views == {FormView};
    }
  }

  /** The order number on the confirmation screen for a draw `n` of
      `Math.floor(Math.random() * 10000)`: "PS" and `n` padded to four digits. */
  function OrderNumberText(n: nat): (text: string)
    requires n < 10000
    ensures |text| >= 2 && text[..2] == "PS"
  {
    "PS" + PadStart(NatToDecimal(n), 4, '0')
  }

  /** The order number is always six characters, "PS" and four decimal digits that
      denote the draw; so distinct draws give distinct numbers. */
  lemma {:induction false} OrderNumberShape(n: nat)
    requires n < 10000
    ensures |OrderNumberText(n)| == 6
    ensures AllDigits(OrderNumberText(n)[2..]) && DigitsValue(OrderNumberText(n)[2..]) == n
  {
    DecimalLength(n);
    PaddedNumeral(NatToDecimal(n));
    assert OrderNumberText(n)[2..] == PadStart(NatToDecimal(n), 4, '0');
  }

  /** A numeral of at most four digits padded with zeros to four is still a numeral of
      the same value. */
  lemma {:induction false} PaddedNumeral(digits: string)
    requires AllDigits(digits) && |digits| <= 4
    ensures |PadStart(digits, 4, '0')| == 4
    ensures AllDigits(PadStart(digits, 4, '0')) && DigitsValue(PadStart(digits, 4, '0')) == DigitsValue(digits)
  {
    var padded := PadStart(digits, 4, '0');
    var zeros := padded[..4 - |digits|];
    assert padded == zeros + digits;
    LeadingZeros(zeros, digits);
  }

  /** The page's state. */
  class Flow {
    var currentOrder: Option<PrintOrder>
    var orderConfirmed: bool

    constructor ()
      ensures currentOrder.None? && !orderConfirmed
      ensures RenderedViews(currentOrder, orderConfirmed) == {FormView}
    {
      currentOrder := None;
      orderConfirmed := false;
    }

    /** `handleOrderSubmit`: the form's order is kept for the summary. */
    method HandleOrderSubmit(order: PrintOrder)
      modifies this
      ensures currentOrder == Some(order) && orderConfirmed == old(orderConfirmed)
    {
      currentOrder := Some(order);
    }

    /** `handleOrderConfirm`: only the flag is set; the order stays for the
        confirmation text. */
    method HandleOrderConfirm()
      modifies this
      ensures orderConfirmed && currentOrder == old(currentOrder)
      ensures RenderedViews(currentOrder, orderConfirmed) == {ConfirmationView}
    {
      orderConfirmed := true;
    }

    /** `handleOrderCancel`: the order is dropped; the flag is left as it is. */
    method HandleOrderCancel()
      modifies this
      ensures currentOrder.None? && orderConfirmed == old(orderConfirmed)
    {
      currentOrder := None;
    }

    /** `handleNewOrder`: both pieces of state reset, back to the form. */
    method HandleNewOrder()
      modifies this
      ensures currentOrder.None? && !orderConfirmed
      ensures RenderedViews(currentOrder, orderConfirmed) == {FormView}
    {
      currentOrder := None;
      orderConfirmed := false;
    }
  }
}
