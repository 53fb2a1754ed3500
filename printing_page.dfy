/** The `PrintingPage` checkout wizard: upload and options, then the customer's
    details, then review, then payment. The page keeps the step, the draft order from
    the form, and the number, reference and payment address the server returns; the
    current order and the order history live in the shared `PrintingContext` session.
    The step type in the source misspells 'upload'; the five intended step names are
    modelled. */
module PrintingPage {
  import opened Types
  import PrintingContext

  /** `OrderStep`. */
  datatype Step = StepUpload | StepUserInfo | StepReview | StepPayment | StepConfirmation

  /** What `submitOrder` returns. */
  datatype SubmitResult = SubmitResult(orderNumber: string, paymentReference: string, paymentUrl: string)

  /** The reply to `submitOrder`: a result, or a thrown error. */
  datatype SubmitReply = Submitted(result: SubmitResult) | SubmitThrew

  /** The draft with the customer's details attached: `{ ...tempOrderData, userInfo }`. */
  function WithUserInfo(draft: PrintOrder, userInfo: UserInfo): (order: PrintOrder)
    ensures order.userInfo == Some(userInfo)
    ensures order.(userInfo := draft.userInfo) == draft
  {
    draft.(userInfo := Some(userInfo))
  }

  class CheckoutFlow {
    const session: PrintingContext.PrintingSession
    var step: Step
    var isProcessing: bool
    var orderNumber: string
    var paymentReference: string
    var paymentUrl: string
    var tempOrderData: Option<PrintOrder>

    /** No handler leaves a submission in progress or reaches 'confirmation', and the
        review and payment steps always have a current order to show. */
    ghost predicate Valid()
      reads this, session
    {
      && session.Valid()
      && !isProcessing
      && step != StepConfirmation
      && (step == StepReview || step == StepPayment ==> session.currentOrder.Some?)
    }

    constructor (session: PrintingContext.PrintingSession)
      requires session.Valid()
      ensures this.session == session && Valid()
      ensures step == StepUpload && !isProcessing && tempOrderData.None?
      ensures orderNumber == "" && paymentReference == "" && paymentUrl == ""
    {
      this.session := session;
      step := StepUpload;
      isProcessing := false;
      orderNumber, paymentReference, paymentUrl := "", "", "";
      tempOrderData := None;
    }

    /** `handleOrderSubmit`: the form's order becomes the draft and the customer's
        details are asked for next. */
    method HandleOrderSubmit(order: PrintOrder)
      requires Valid()
      modifies this
      ensures Valid()
      ensures tempOrderData == Some(order) && step == StepUserInfo
      ensures orderNumber == old(orderNumber) && paymentReference == old(paymentReference)
      ensures paymentUrl == old(paymentUrl)
    {
      tempOrderData := Some(order);
      step := StepUserInfo;
    }

    /** `handleUserInfoSubmit`: with a draft, the draft plus the details becomes the
        current order and the review step follows; without one nothing happens. */
    method HandleUserInfoSubmit(userInfo: UserInfo)
      requires Valid()
      modifies this, session
      ensures Valid()
      ensures old(tempOrderData).None? ==> step == old(step) && session.currentOrder == old(session.currentOrder)
      ensures old(tempOrderData).Some? ==>
                && session.currentOrder == Some(WithUserInfo(old(tempOrderData).value, userInfo))
                && step == StepReview
      ensures tempOrderData == old(tempOrderData)
      ensures session.orderHistory == old(session.orderHistory) && session.recentUploads == old(session.recentUploads)
      ensures orderNumber == old(orderNumber) && paymentReference == old(paymentReference)
      ensures paymentUrl == old(paymentUrl)
    {
      if tempOrderData.None? {
        return;
      }
      var completeOrder := WithUserInfo(tempOrderData.value, userInfo);
      session.SetCurrentOrder(Some(completeOrder));
      step := StepReview;
    }

    /** `handleOrderConfirm`: without a current order nothing happens. Otherwise the
        order is sent as it is (`payload`); a result sets the order number, payment
        reference and payment address together, records the order in the history and
        moves to payment; a thrown call leaves all of that as it was. */
    method HandleOrderConfirm(reply: SubmitReply) returns (payload: Option<PrintOrder>)
      requires Valid()
      modifies this, session
      ensures Valid()
      ensures payload == old(session.currentOrder)
      ensures session.currentOrder == old(session.currentOrder)
      ensures payload.Some? && reply.Submitted? ==>
                && orderNumber == reply.result.orderNumber
                && paymentReference == reply.result.paymentReference
                && paymentUrl == reply.result.paymentUrl
                && session.orderHistory == PrintingContext.AddToHistory(old(session.orderHistory), payload.value)
                && step == StepPayment
      ensures payload.None? || reply.SubmitThrew? ==>
                && orderNumber == old(orderNumber) && paymentReference == old(paymentReference)
                && paymentUrl == old(paymentUrl)
                && session.orderHistory == old(session.orderHistory)
                && step == old(step)
      ensures session.recentUploads == old(session.recentUploads) && tempOrderData == old(tempOrderData)
    {
      if session.currentOrder.None? {
        return None;
      }
      var currentOrder := session.currentOrder.value;
      isProcessing := true;
      payload := Some(currentOrder);
      match reply {
        case Submitted(result) =>
          orderNumber := result.orderNumber;
          paymentReference := result.paymentReference;
          paymentUrl := result.paymentUrl;
          session.AddToOrderHistory(currentOrder);
          step := StepPayment;
        case SubmitThrew =>
      }
      isProcessing := false;
    }

    /** `handlePaymentCancel` (offered on the payment step): back to review. */
    method HandlePaymentCancel()
      requires Valid() && step == StepPayment
      modifies this
      ensures Valid()
      ensures step == StepReview
      ensures tempOrderData == old(tempOrderData) && orderNumber == old(orderNumber)
      ensures paymentReference == old(paymentReference) && paymentUrl == old(paymentUrl)
      ensures session.currentOrder == old(session.currentOrder)
    {
      step := StepReview;
    }

    /** `handleBackToUserInfo`: back to the customer's details. */
    method HandleBackToUserInfo()
      requires Valid()
      modifies this
      ensures Valid()
      ensures step == StepUserInfo
      ensures tempOrderData == old(tempOrderData) && orderNumber == old(orderNumber)
      ensures paymentReference == old(paymentReference) && paymentUrl == old(paymentUrl)
      ensures session.currentOrder == old(session.currentOrder)
    {
      step := StepUserInfo;
    }

    /** The "Back to document options" button of the details step. */
    method BackToUpload()
      requires Valid()
      modifies this
      ensures Valid()
      ensures step == StepUpload
      ensures tempOrderData == old(tempOrderData) && orderNumber == old(orderNumber)
      ensures paymentReference == old(paymentReference) && paymentUrl == old(paymentUrl)
      ensures session.currentOrder == old(session.currentOrder)
    {
      step := StepUpload;
    }

    /** `handleNewOrder`: current order and draft cleared, back to upload; the last
        order number and payment details are kept. */
    method HandleNewOrder()
      requires Valid()
      modifies this, session
      ensures Valid()
      ensures session.currentOrder.None? && tempOrderData.None? && step == StepUpload
      ensures orderNumber == old(orderNumber) && paymentReference == old(paymentReference)
      ensures paymentUrl == old(paymentUrl)
      ensures session.orderHistory == old(session.orderHistory) && session.recentUploads == old(session.recentUploads)
    {
      session.SetCurrentOrder(None);
      tempOrderData := None;
      step := StepUpload;
    }
  }
}
