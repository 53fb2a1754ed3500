/** The record shapes of `src/types/index.ts` that the modelled components share. */
module Types {

  /** A JavaScript value that may be `null`/`undefined`. */
  datatype Option<+T> = None | Some(value: T) {
    function GetOr(default: T): T {
      match this
      case Some(v) => v
      case None => default
    }
  }

  /** `PrintColorType`: 'monochrome' | 'colored'. */
  datatype PrintColor = Monochrome | Colored

  /** `BindingType`: 'none' | 'comb' | 'slide' | 'tape'. */
  datatype Binding = NoBinding | Comb | Slide | Tape

  /** The string value a binding has at run time. */
  function BindingName(b: Binding): string {
    match b
    case NoBinding => "none"
    case Comb => "comb"
    case Slide => "slide"
    case Tape => "tape"
  }

  function PrintColorName(c: PrintColor): string {
    match c
    case Monochrome => "monochrome"
    case Colored => "colored"
  }

  /** `UserInfo`; the field the source calls `class` is `classYear` here. */
  datatype UserInfo = UserInfo(name: string, email: string, phone: string, course: string, classYear: string)

  /** `PrintOrder` / `BackendPrintOrder` (the former adds nothing to the latter). */
  datatype PrintOrder = PrintOrder(
    fileId: string,
    fileName: string,
    pageCount: nat,
    colorPages: Option<nat>,
    monochromePages: Option<nat>,
    printColor: PrintColor,
    binding: Binding,
    campusDelivery: bool,
    totalPrice: int,
    userInfo: Option<UserInfo>)

  /** A price breakdown in whole currency units. */
  datatype PriceBreakdown = PriceBreakdown(baseCost: int, bindingCost: int, deliveryCost: int, totalCost: int)

  /** `Order['order_status']`. */
  datatype OrderStatus = Pending | Processing | Completed | Failed | Cancelled

  function OrderStatusName(s: OrderStatus): string {
    match s
    case Pending => "pending"
    case Processing => "processing"
    case Completed => "completed"
    case Failed => "failed"
    case Cancelled => "cancelled"
  }

  /** `Payment['status']`. */
  datatype PaymentState = PaymentPending | PaymentCompleted | PaymentFailed

  function PaymentStateName(s: PaymentState): string {
    match s
    case PaymentPending => "pending"
    case PaymentCompleted => "completed"
    case PaymentFailed => "failed"
  }

  /** `Payment`; `date` is a timestamp in milliseconds, or absent. */
  datatype Payment = Payment(reference: string, status: PaymentState, date: Option<int>)

  /** The admin `Order` record; `created_at`/`updated_at` are timestamps in milliseconds. */
  datatype Order = Order(
    id: int,
    orderNumber: string,
    fileId: string,
    fileName: string,
    pageCount: nat,
    colorPages: nat,
    monochromePages: nat,
    printColor: PrintColor,
    binding: Binding,
    campusDelivery: bool,
    totalPrice: int,
    orderStatus: OrderStatus,
    createdAt: int,
    updatedAt: int,
    userInfo: UserInfo,
    payment: Payment)
}
