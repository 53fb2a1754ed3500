/** The `PaymentStatus` page: it reads the payment reference and order number from the
    address, asks the server to verify the payment, and shows the outcome. The verify
    call is a server round trip; its reply is a parameter here. */
module PaymentStatus {
  import opened Types

  /** The page's `status`. A successful reply's status is stored as the server sends it,
      so a value outside the four known ones is kept as `StatusOther`. */
  datatype PayStatus = StatusPending | StatusCompleted | StatusFailed | StatusError | StatusOther(raw: string)

  /** The page's reading of a status string. */
  function ParseStatus(s: string): (st: PayStatus)
    ensures st.StatusOther? <==> s != "pending" && s != "completed" && s != "failed" && s != "error"
    ensures st.StatusOther? ==> st.raw == s
  {
    if s == "pending" then StatusPending
    else if s == "completed" then StatusCompleted
    else if s == "failed" then StatusFailed
    else if s == "error" then StatusError
    else StatusOther(s)
  }

  /** The reply to `getPaymentStatus`: a response body (its message and order number may
      be absent), or a thrown error. */
  datatype VerifyReply =
    | Replied(success: bool, status: string, message: Option<string>, orderNumber: Option<string>)
    | VerifyThrew

  const NO_REFERENCE := "No payment reference provided"
  const VERIFY_FAILED := "Failed to verify payment"
  const VERIFY_THREW := "Error checking payment status. Please try again."
  const CONFIRMATION_PREFIX := "/payment-success?orderNumber="

  /** JavaScript's `a || b` on an optional string: `a` unless it is absent or empty. */
  function OrElse(a: Option<string>, b: string): (r: string)
    ensures r == b || (a.Some? && r == a.value)
    ensures r == "" ==> b == ""
    ensures a.Some? && a.value != "" ==> r == a.value
  {
    if a.Some? && a.value != "" then a.value else b
  }

  /** What one check leaves on the page. */
  datatype Outcome = Outcome(status: PayStatus, message: string, orderNumber: string)

  /** The outcome of `checkPaymentStatus` for a reply, the order number from the address
      and the order number shown before. A successful reply supplies status and message
      and its order number, falling back to the address's; any other reply is an error
      with a non-empty message and keeps the order number. */
  function CheckOutcome(reply: VerifyReply, orderNumberParam: string, shown: string): (o: Outcome)
    ensures reply.Replied? && reply.success ==>
              && o.status == ParseStatus(reply.status)
              && o.message == reply.message.GetOr("")
              && o.orderNumber == OrElse(reply.orderNumber, orderNumberParam)
    ensures reply.Replied? && !reply.success ==>
              && o.status == StatusError
              && o.message == OrElse(reply.message, VERIFY_FAILED)
              && o.orderNumber == shown
    ensures reply.VerifyThrew? ==> o == Outcome(StatusError, VERIFY_THREW, shown)
  {
    match reply
    case Replied(success, status, message, orderNumber) =>
      if success then Outcome(ParseStatus(status), message.GetOr(""), OrElse(orderNumber, orderNumberParam))
      else Outcome(StatusError, OrElse(message, VERIFY_FAILED), shown)
    case VerifyThrew =>
      Outcome(StatusError, VERIFY_THREW, shown)
  }

  /** A check that does not get a successful reply always explains itself: it ends in
      the error state with a non-empty message. */
  lemma FailedCheckExplains(reply: VerifyReply, orderNumberParam: string, shown: string)
    requires reply.VerifyThrew? || !reply.success
    ensures var o := CheckOutcome(reply, orderNumberParam, shown);
            o.status == StatusError && o.message != ""
  {
  }

  /** After a successful reply an order number is shown whenever the server or the
      address supplied one. */
  lemma SuccessShowsOrderNumber(reply: VerifyReply, orderNumberParam: string, shown: string)
    requires reply.Replied? && reply.success
    requires orderNumberParam != "" || (reply.orderNumber.Some? && reply.orderNumber.value != "")
    ensures CheckOutcome(reply, orderNumberParam, shown).orderNumber != ""
  {
  }

  /** `handleGoToConfirmation`'s target. */
  function ConfirmationPath(orderNumber: string): (path: string)
    ensures |path| == |CONFIRMATION_PREFIX| + |orderNumber|
    ensures path[..|CONFIRMATION_PREFIX|] == CONFIRMATION_PREFIX && path[|CONFIRMATION_PREFIX|..] == orderNumber
  {
    CONFIRMATION_PREFIX + orderNumber
  }

  /** The page's state; `reference` and `orderNumberParam` come from the address. */
  class PaymentCheck {
    const reference: string
    const orderNumberParam: string
    var isLoading: bool
    var status: PayStatus
    var message: string
    var orderNumber: string

    constructor (reference: string, orderNumberParam: string)
      ensures this.reference == reference && this.orderNumberParam == orderNumberParam
      ensures isLoading && status == StatusPending && message == "" && orderNumber == ""
    {
      this.reference := reference;
      this.orderNumberParam := orderNumberParam;
      isLoading := true;
      status := StatusPending;
      message := "";
      orderNumber := "";
    }

    /** `checkPaymentStatus`: one verify call with the reference (`sent`); the page then
        shows the reply's outcome and is no longer loading. */
    method CheckPaymentStatus(reply: VerifyReply) returns (sent: string)
      modifies this
      ensures sent == reference
      ensures Outcome(status, message, orderNumber) == CheckOutcome(reply, orderNumberParam, old(orderNumber))
      ensures !isLoading
    {
      isLoading := true;
      sent := reference;
      match reply {
        case Replied(success, replyStatus, replyMessage, replyOrderNumber) =>
          if success {
            status := ParseStatus(replyStatus);
            message := replyMessage.GetOr("");
            orderNumber := OrElse(replyOrderNumber, orderNumberParam);
          } else {
            status := StatusError;
            message := OrElse(replyMessage, VERIFY_FAILED);
          }
        case VerifyThrew =>
          status := StatusError;
          message := VERIFY_THREW;
      }
      isLoading := false;
    }

    /** The effect run on arrival: without a reference the page shows the error and no
        call is made (`sent` is `None`); otherwise the status is checked. */
    method Mount(reply: VerifyReply) returns (sent: Option<string>)
      modifies this
      ensures sent.None? <==> reference == ""
      ensures reference == "" ==>
                status == StatusError && message == NO_REFERENCE && orderNumber == old(orderNumber)
      ensures reference != "" ==>
                && sent == Some(reference)
                && Outcome(status, message, orderNumber) == CheckOutcome(reply, orderNumberParam, old(orderNumber))
      ensures !isLoading
    {
      if reference != "" {
        var s := CheckPaymentStatus(reply);
        sent := Some(s);
      } else {
        isLoading := false;
        status := StatusError;
        message := NO_REFERENCE;
        sent := None;
      }
    }

    /** "Check Again", offered only while the payment is pending: the same check once
        more. */
    method HandleRetryCheck(reply: VerifyReply) returns (sent: string)
      requires !isLoading && status == StatusPending
      modifies this
      ensures sent == reference
      ensures Outcome(status, message, orderNumber) == CheckOutcome(reply, orderNumberParam, old(orderNumber))
      ensures !isLoading
    {
      sent := CheckPaymentStatus(reply);
    }

    /** "Continue to Order Confirmation", offered once the payment is completed. */
    method HandleGoToConfirmation() returns (path: string)
      requires !isLoading && status == StatusCompleted
      ensures path == ConfirmationPath(orderNumber)
    {
      path := CONFIRMATION_PREFIX + orderNumber;
    }
  }
}
