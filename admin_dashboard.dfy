/** The `AdminDashboard` order table: the orders fetched from the server, the view of
    them that the status, date-window and search filters keep, sorted by the chosen
    column, and the status update of one order. The clock is a parameter: the
    midnight cut-offs of the date windows are passed in as timestamps. */
module AdminDashboard {
  import opened Types
  import opened Text
  import opened Seqs

  /** `OrderFilters`: the three select/search values, as the inputs deliver them. */
  datatype Filters = Filters(status: string, dateRange: string, search: string)

  /** The keys of `OrderFilters`. */
  datatype FilterName = StatusFilter | DateRangeFilter | SearchFilter

  function GetFilter(f: Filters, name: FilterName): string {
    match name
    case StatusFilter => f.status
    case DateRangeFilter => f.dateRange
    case SearchFilter => f.search
  }

  /** `{ ...filters, [name]: value }`: only the named filter changes. */
  function WithFilter(f: Filters, name: FilterName, value: string): (r: Filters)
    ensures GetFilter(r, name) == value
    ensures forall other :: other != name ==> GetFilter(r, other) == GetFilter(f, other)
  {
    match name
    case StatusFilter => f.(status := value)
    case DateRangeFilter => f.(dateRange := value)
    case SearchFilter => f.(search := value)
  }

  /** The instants the date windows start at: midnight today, and midnight one day,
      seven days and one calendar month before it. */
  datatype Cutoffs = Cutoffs(today: int, yesterday: int, lastWeek: int, lastMonth: int)

  /** The status filter: 'all', or exactly the orders with that status. */
  predicate StatusOk(o: Order, status: string) {
    status == "all" || OrderStatusName(o.orderStatus) == status
  }

  /** The date-window filter on the creation time; 'all' and unknown values keep all. */
  predicate DateOk(createdAt: int, range: string, cut: Cutoffs) {
    if range == "today" then createdAt >= cut.today
    else if range == "yesterday" then cut.yesterday <= createdAt < cut.today
    else if range == "thisWeek" then createdAt >= cut.lastWeek
    else if range == "thisMonth" then createdAt >= cut.lastMonth
    else true
  }

  /** A lower-cased term found in the lower-cased order number, file name, customer
      name or customer email. */
  predicate MatchesTerm(o: Order, term: string) {
    || Contains(ToLower(o.orderNumber), term)
    || Contains(ToLower(o.fileName), term)
    || Contains(ToLower(o.userInfo.name), term)
    || Contains(ToLower(o.userInfo.email), term)
  }

  /** The search filter: an empty search keeps all. */
  predicate SearchOk(o: Order, search: string) {
    search == "" || MatchesTerm(o, ToLower(search))
  }

  /** An order passes every filter. */
  predicate Passes(o: Order, f: Filters, cut: Cutoffs) {
    StatusOk(o, f.status) && DateOk(o.createdAt, f.dateRange, cut) && SearchOk(o, f.search)
  }

  /** The search ignores the case of the term. */
  lemma SearchIgnoresCase(o: Order, search: string)
    ensures SearchOk(o, ToLower(search)) == SearchOk(o, search)
  {
    assert ToLower(ToLower(search)) == ToLower(search);
  }

  /** A non-empty search keeps an order exactly when the lower-cased term occurs at
      some position of the lower-cased order number, file name, customer name or
      customer email. */
  lemma SearchMeansOccurrence(o: Order, search: string)
    requires search != ""
    ensures SearchOk(o, search) <==>
              || (exists i :: OccursAt(ToLower(o.orderNumber), ToLower(search), i))
              || (exists i :: OccursAt(ToLower(o.fileName), ToLower(search), i))
              || (exists i :: OccursAt(ToLower(o.userInfo.name), ToLower(search), i))
              || (exists i :: OccursAt(ToLower(o.userInfo.email), ToLower(search), i))
  {
    ContainsIffOccurs(ToLower(o.orderNumber), ToLower(search));
    ContainsIffOccurs(ToLower(o.fileName), ToLower(search));
    ContainsIffOccurs(ToLower(o.userInfo.name), ToLower(search));
    ContainsIffOccurs(ToLower(o.userInfo.email), ToLower(search));
  }

  /** With the cut-offs in calendar order, the windows nest: today lies within this
      week, yesterday lies within this week, this week within this month; today and
      yesterday do not overlap; and any other range value keeps every order. */
  lemma DateWindows(createdAt: int, cut: Cutoffs, other: string)
    requires cut.lastMonth <= cut.lastWeek <= cut.yesterday <= cut.today
    requires other !in {"today", "yesterday", "thisWeek", "thisMonth"}
    ensures DateOk(createdAt, "today", cut) ==> DateOk(createdAt, "thisWeek", cut)
    ensures DateOk(createdAt, "yesterday", cut) ==> DateOk(createdAt, "thisWeek", cut)
    ensures DateOk(createdAt, "thisWeek", cut) ==> DateOk(createdAt, "thisMonth", cut)
    ensures !(DateOk(createdAt, "today", cut) && DateOk(createdAt, "yesterday", cut))
    ensures DateOk(createdAt, other, cut)
  {
  }

  /** A status other than 'all' keeps exactly the orders whose status has that name. */
  lemma StatusSelects(o: Order, status: string)
    requires status != "all"
    ensures StatusOk(o, status) <==> OrderStatusName(o.orderStatus) == status
  {
  }

  function StatusTest(status: string): Order -> bool {
    (o: Order) => StatusOk(o, status)
  }

  function DateTest(range: string, cut: Cutoffs): Order -> bool {
    (o: Order) => DateOk(o.createdAt, range, cut)
  }

  function SearchTest(search: string): Order -> bool {
    (o: Order) => SearchOk(o, search)
  }

  function StatusDateTest(f: Filters, cut: Cutoffs): Order -> bool {
    (o: Order) => StatusOk(o, f.status) && DateOk(o.createdAt, f.dateRange, cut)
  }

  function PassesTest(f: Filters, cut: Cutoffs): Order -> bool {
    (o: Order) => Passes(o, f, cut)
  }

  /** The sortable columns. */
  datatype SortField = ByOrderNumber | ByCreatedAt | ByCustomerName | ByFileName | ByTotalPrice
                     | ByPaymentStatus | ByOrderStatus

  datatype Direction = Asc | Desc

  /** `OrderSorting`. */
  datatype Sorting = Sorting(field: SortField, direction: Direction)

  /** The value the comparator reads from an order: a number (timestamps and the
      price) or a string. */
  datatype SortKey = NumKey(n: int) | StrKey(s: string)

  function KeyOf(o: Order, field: SortField): SortKey {
    match field
    case ByOrderNumber => StrKey(o.orderNumber)
    case ByCreatedAt => NumKey(o.createdAt)
    case ByCustomerName => StrKey(o.userInfo.name)
    case ByFileName => StrKey(o.fileName)
    case ByTotalPrice => NumKey(o.totalPrice)
    case ByPaymentStatus => StrKey(PaymentStateName(o.payment.status))
    case ByOrderStatus => StrKey(OrderStatusName(o.orderStatus))
  }

  /** Ascending order on keys: numbers numerically, strings lexicographically. A column
      always yields keys of one kind; across kinds numbers come first. */
  predicate KeyLe(a: SortKey, b: SortKey) {
    match (a, b)
    case (NumKey(x), NumKey(y)) => x <= y
    case (StrKey(x), StrKey(y)) => LexLe(x, y)
    case (NumKey(_), StrKey(_)) => true
    case (StrKey(_), NumKey(_)) => false
  }

  /** `a` may stand before `b`: the comparator does not put `b` first. */
  predicate Before(a: Order, b: Order, so: Sorting) {
    if so.direction == Asc then KeyLe(KeyOf(a, so.field), KeyOf(b, so.field))
    else KeyLe(KeyOf(b, so.field), KeyOf(a, so.field))
  }

  lemma BeforeTotal(a: Order, b: Order, so: Sorting)
    ensures Before(a, b, so) || Before(b, a, so)
  {
    var ka, kb := KeyOf(a, so.field), KeyOf(b, so.field);
    if ka.StrKey? && kb.StrKey? {
      LexTotal(ka.s, kb.s);
    }
  }

  lemma BeforeTrans(a: Order, b: Order, c: Order, so: Sorting)
    requires Before(a, b, so) && Before(b, c, so)
    ensures Before(a, c, so)
  {
    var ka, kb, kc := KeyOf(a, so.field), KeyOf(b, so.field), KeyOf(c, so.field);
    if ka.StrKey? && kb.StrKey? && kc.StrKey? {
      if so.direction == Asc {
        LexTrans(ka.s, kb.s, kc.s);
      } else {
        LexTrans(kc.s, kb.s, ka.s);
      }
    }
  }

  /** Ordered by the chosen column in the chosen direction. */
  predicate Sorted(s: seq<Order>, so: Sorting) {
    forall i, j :: 0 <= i < j < |s| ==> Before(s[i], s[j], so)
  }

  /** Puts `x` in front of the first element it may stand before. */
  function Insert(x: Order, s: seq<Order>, so: Sorting): seq<Order> {
    if s == [] then [x]
    else if Before(x, s[0], so) then [x] + s
    else [s[0]] + Insert(x, s[1..], so)
  }

  /** The sort of `applyFilters`, an insertion sort that keeps equal keys in their
      input order. */
  function SortOrders(s: seq<Order>, so: Sorting): (r: seq<Order>)
    ensures Sorted(r, so)
    ensures multiset(r) == multiset(s)
  {
    if s == [] then []
    else
      var rest := SortOrders(s[1..], so);
      SortStep(s, rest, so);
      Insert(s[0], rest, so)
  }

  /** Inserting the head into a sorted permutation of the tail gives a sorted
      permutation of the whole. */
  lemma SortStep(s: seq<Order>, rest: seq<Order>, so: Sorting)
    requires s != [] && Sorted(rest, so) && multiset(rest) == multiset(s[1..])
    ensures Sorted(Insert(s[0], rest, so), so)
    ensures multiset(Insert(s[0], rest, so)) == multiset(s)
  {
    InsertSorted(s[0], rest, so);
    InsertPerm(s[0], rest, so);
    assert s == [s[0]] + s[1..];
  }

  /** An order that may stand before `x` and before every element of `s` may stand
      before every element of `Insert(x, s, so)`. */
  lemma {:induction false} InsertLowerBound(b: Order, x: Order, s: seq<Order>, so: Sorting)
    requires Before(b, x, so)
    requires forall k :: 0 <= k < |s| ==> Before(b, s[k], so)
    ensures forall j :: 0 <= j < |Insert(x, s, so)| ==> Before(b, Insert(x, s, so)[j], so)
  {
    var r := Insert(x, s, so);
    if s == [] {
      assert r == [x];
    } else if Before(x, s[0], so) {
      forall j | 0 <= j < |r| ensures Before(b, r[j], so) {
        if j > 0 {
          assert r[j] == s[j - 1];
        }
      }
    } else {
      var t := Insert(x, s[1..], so);
      InsertLowerBound(b, x, s[1..], so);
      forall j | 0 <= j < |r| ensures Before(b, r[j], so) {
        if j > 0 {
          assert r[j] == t[j - 1];
        }
      }
    }
  }

  /** Inserting adds exactly the inserted order. */
  lemma {:induction false} InsertPerm(x: Order, s: seq<Order>, so: Sorting)
    ensures multiset(Insert(x, s, so)) == multiset(s) + multiset{x}
  {
    if s != [] && !Before(x, s[0], so) {
      InsertPerm(x, s[1..], so);
      assert s == [s[0]] + s[1..];
    }
  }

  /** Inserting into a sorted list keeps it sorted. */
  lemma {:induction false} InsertSorted(x: Order, s: seq<Order>, so: Sorting)
    requires Sorted(s, so)
    ensures Sorted(Insert(x, s, so), so)
  {
    if s == [] {
    } else if Before(x, s[0], so) {
      var r := [x] + s;
      forall i, j | 0 <= i < j < |r| ensures Before(r[i], r[j], so) {
        if i == 0 && j > 1 {
          BeforeTrans(x, s[0], s[j - 1], so);
        }
      }
      assert r == Insert(x, s, so);
    } else {
      var tail := s[1..];
      assert Sorted(tail, so) by {
        forall i, j | 0 <= i < j < |tail| ensures Before(tail[i], tail[j], so) {
          assert tail[i] == s[i + 1] && tail[j] == s[j + 1];
        }
      }
      InsertSorted(x, tail, so);
      BeforeTotal(x, s[0], so);
      assert forall k :: 0 <= k < |tail| ==> Before(s[0], tail[k], so) by {
        forall k | 0 <= k < |tail| ensures Before(s[0], tail[k], so) {
          assert tail[k] == s[k + 1];
        }
      }
      InsertLowerBound(s[0], x, tail, so);
      var t := Insert(x, tail, so);
      var r := [s[0]] + t;
      forall i, j | 0 <= i < j < |r| ensures Before(r[i], r[j], so) {
        assert r[j] == t[j - 1];
        if i > 0 {
          assert r[i] == t[i - 1];
        }
      }
      assert r == Insert(x, s, so);
    }
  }

  /** Skipping the status filter for 'all' loses nothing: the list is what the
      status test keeps. */
  lemma StatusStage(data: seq<Order>, f: Filters)
    ensures (if f.status != "all" then Filter(data, StatusTest(f.status)) else data)
            == Filter(data, StatusTest(f.status))
  {
    if f.status == "all" {
      FilterAllPass(data, StatusTest(f.status));
    }
  }

  /** After the status stage, the date stage (skipped for 'all') leaves what the
      status and date tests together keep. */
  lemma DateStage(data: seq<Order>, f: Filters, cut: Cutoffs)
    ensures (var s := Filter(data, StatusTest(f.status));
             if f.dateRange != "all" then Filter(s, DateTest(f.dateRange, cut)) else s)
            == Filter(data, StatusDateTest(f, cut))
  {
    var s := Filter(data, StatusTest(f.status));
    if f.dateRange == "all" {
      FilterAllPass(s, DateTest(f.dateRange, cut));
    }
    FilterCompose(data, StatusTest(f.status), DateTest(f.dateRange, cut), StatusDateTest(f, cut));
  }

  /** After the status and date stages, the search stage (skipped for an empty term)
      leaves exactly the orders that pass every filter. */
  lemma SearchStage(data: seq<Order>, f: Filters, cut: Cutoffs)
    ensures (var s := Filter(data, StatusDateTest(f, cut));
             if f.search != "" then Filter(s, SearchTest(f.search)) else s)
            == Filter(data, PassesTest(f, cut))
  {
    var s := Filter(data, StatusDateTest(f, cut));
    if f.search == "" {
      FilterAllPass(s, SearchTest(f.search));
    }
    FilterCompose(data, StatusDateTest(f, cut), SearchTest(f.search), PassesTest(f, cut));
  }

  /** What `applyFilters` shows: the orders that pass every filter, sorted. It is
      ordered by the chosen column, and it is a permutation of exactly the passing
      orders: each passing order as often as the input has it, no other order. */
  function FilterAndSort(orderData: seq<Order>, f: Filters, so: Sorting, cut: Cutoffs): (r: seq<Order>)
    ensures Sorted(r, so)
    ensures forall o :: multiset(r)[o] == if Passes(o, f, cut) then multiset(orderData)[o] else 0
  {
    var kept := Filter(orderData, PassesTest(f, cut));
    FilterCounts(orderData, PassesTest(f, cut));
    SortOrders(kept, so)
  }

  /** `handleSortChange`: a new column sorts ascending; the current column flips
      between ascending and descending. */
  function NextSorting(so: Sorting, field: SortField): (r: Sorting)
    ensures r.field == field
    ensures r.direction == Desc <==> so.field == field && so.direction == Asc
  {
    Sorting(field, if so.field == field && so.direction == Asc then Desc else Asc)
  }

  /** Choosing the current column twice restores the sorting. */
  lemma SortTwiceRestores(so: Sorting)
    ensures NextSorting(NextSorting(so, so.field), so.field) == so
  {
  }

  /** The local update after a successful status change: the orders with that number
      get the new status; nothing else changes. */
  function WithStatus(orders: seq<Order>, orderNumber: string, status: OrderStatus): (r: seq<Order>)
    ensures |r| == |orders|
    ensures forall i :: 0 <= i < |r| ==> r[i].(orderStatus := orders[i].orderStatus) == orders[i]
    ensures forall i :: 0 <= i < |r| ==>
              if orders[i].orderNumber == orderNumber then r[i].orderStatus == status else r[i] == orders[i]
  {
    if orders == [] then []
    else
      var o := orders[0];
      [if o.orderNumber == orderNumber then o.(orderStatus := status) else o]
        + WithStatus(orders[1..], orderNumber, status)
  }

  /** The reply to the orders request. */
  datatype FetchReply = Fetched(orders: seq<Order>) | FetchThrew

  const FETCH_FAILED := "Failed to fetch orders. Please try again later."
  const DETAILS_FAILED := "Failed to fetch order details."
  const UPDATE_FAILED := "Failed to update order status."

  /** The dashboard's state. */
  class Dashboard {
    var orders: seq<Order>
    var filteredOrders: seq<Order>
    var loading: bool
    var error: Option<string>
    var selectedOrder: Option<Order>
    var filters: Filters
    var sorting: Sorting

    constructor ()
      ensures orders == [] && filteredOrders == [] && loading && error.None? && selectedOrder.None?
      ensures filters == Filters("all", "all", "") && sorting == Sorting(ByCreatedAt, Desc)
    {
      orders, filteredOrders := [], [];
      loading := true;
      error := None;
      selectedOrder := None;
      filters := Filters("all", "all", "");
      sorting := Sorting(ByCreatedAt, Desc);
    }

    /** `applyFilters`: each active filter narrows the copied list in turn, then the
        list is sorted. */
    method ApplyFilters(orderData: seq<Order>, cut: Cutoffs)
      modifies this
      ensures filteredOrders == FilterAndSort(orderData, filters, sorting, cut)
      ensures orders == old(orders) && loading == old(loading) && error == old(error)
      ensures selectedOrder == old(selectedOrder) && filters == old(filters) && sorting == old(sorting)
    {
      var f, so := filters, sorting;
      var result := orderData;
      StatusStage(orderData, f);
      if f.status != "all" {
        result := Filter(result, StatusTest(f.status));
      }
      DateStage(orderData, f, cut);
      if f.dateRange != "all" {
        result := Filter(result, DateTest(f.dateRange, cut));
      }
      SearchStage(orderData, f, cut);
      if f.search != "" {
        result := Filter(result, SearchTest(f.search));
      }
      result := SortOrders(result, so);
      filteredOrders := result;
    }

    /** `fetchOrders`: a reply replaces the orders and the view; a failure records the
        error and keeps both. Loading ends either way. */
    method FetchOrders(reply: FetchReply, cut: Cutoffs)
      modifies this
      ensures reply.Fetched? ==>
                orders == reply.orders && filteredOrders == FilterAndSort(reply.orders, filters, sorting, cut)
                && error == old(error)
      ensures reply.FetchThrew? ==>
                orders == old(orders) && filteredOrders == old(filteredOrders) && error == Some(FETCH_FAILED)
      ensures !loading
      ensures selectedOrder == old(selectedOrder) && filters == old(filters) && sorting == old(sorting)
    {
      loading := true;
      match reply {
        case Fetched(fetched) =>
          orders := fetched;
          ApplyFilters(fetched, cut);
          loading := false;
        case FetchThrew =>
          error := Some(FETCH_FAILED);
          loading := false;
      }
    }

    /** `fetchOrderDetails`: the reply becomes the selected order; a failure records the
        error. */
    method FetchOrderDetails(reply: Option<Order>)
      modifies this
      ensures reply.Some? ==> selectedOrder == reply && error == old(error)
      ensures reply.None? ==> selectedOrder == old(selectedOrder) && error == Some(DETAILS_FAILED)
      ensures orders == old(orders) && filteredOrders == old(filteredOrders) && loading == old(loading)
      ensures filters == old(filters) && sorting == old(sorting)
    {
      if reply.Some? {
        selectedOrder := reply;
      } else {
        error := Some(DETAILS_FAILED);
      }
    }

    /** `updateOrderStatus`: once the server accepts, every order with that number gets
        the new status (and no other field or order changes), the view is rebuilt, and
        the selected order follows only if it has that number. A refusal records the
        error and changes nothing else. */
    method UpdateOrderStatus(orderNumber: string, status: OrderStatus, accepted: bool, cut: Cutoffs)
      modifies this
      ensures accepted ==>
                && orders == WithStatus(old(orders), orderNumber, status)
                && filteredOrders == FilterAndSort(orders, filters, sorting, cut)
                && error == old(error)
                && selectedOrder == if old(selectedOrder).Some? && old(selectedOrder).value.orderNumber == orderNumber
                                    then Some(old(selectedOrder).value.(orderStatus := status))
                                    else old(selectedOrder)
      ensures !accepted ==>
                && orders == old(orders) && filteredOrders == old(filteredOrders)
                && selectedOrder == old(selectedOrder) && error == Some(UPDATE_FAILED)
      ensures loading == old(loading) && filters == old(filters) && sorting == old(sorting)
    {
      if !accepted {
        error := Some(UPDATE_FAILED);
        return;
      }
      var updatedOrders := WithStatus(orders, orderNumber, status);
      orders := updatedOrders;
      ApplyFilters(updatedOrders, cut);
      if selectedOrder.Some? && selectedOrder.value.orderNumber == orderNumber {
        selectedOrder := Some(selectedOrder.value.(orderStatus := status));
      }
    }

    /** `handleFilterChange`, followed by the effect that re-applies the filters to the
        current orders. */
    method HandleFilterChange(name: FilterName, value: string, cut: Cutoffs)
      modifies this
      ensures filters == WithFilter(old(filters), name, value)
      ensures filteredOrders == FilterAndSort(orders, filters, sorting, cut)
      ensures orders == old(orders) && sorting == old(sorting) && selectedOrder == old(selectedOrder)
      ensures loading == old(loading) && error == old(error)
    {
      filters := WithFilter(filters, name, value);
      ApplyFilters(orders, cut);
    }

    /** `handleSortChange`, followed by the effect that re-applies the filters. */
    method HandleSortChange(field: SortField, cut: Cutoffs)
      modifies this
      ensures sorting == NextSorting(old(sorting), field)
      ensures filteredOrders == FilterAndSort(orders, filters, sorting, cut)
      ensures orders == old(orders) && filters == old(filters) && selectedOrder == old(selectedOrder)
      ensures loading == old(loading) && error == old(error)
    {
      sorting := NextSorting(sorting, field);
      ApplyFilters(orders, cut);
    }
  }
}
