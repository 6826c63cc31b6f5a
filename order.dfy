/** The order table (component/Order/Order.js): which status changes need a confirmation,
    when the status selector and the delete button are disabled, the case-insensitive
    search, the per-status tabs, the item count of an order, the messages shown after a
    status change, and the per-order in-flight flags. */
module OrderManagement {
  import opened JsSemantics

  const Pending := "pending"
  const Processing := "processing"
  const Shipped := "shipped"
  const Delivered := "delivered"
  const Cancelled := "cancelled"

  /** One line of an order; a missing quantity counts as 0. */
  datatype Item = Item(quantity: Option<int>)

  /** The fields of an order the table reads; optional chaining makes each of them optional. */
  datatype Order = Order(
    id: string,
    orderNo: Option<string>,
    customerName: Option<string>,
    customerPhone: Option<string>,
    statusType: Option<string>,
    items: Option<seq<Item>>)

  // ---------------------------------------------------------------------------
  // confirmStatusChange

  datatype StatusChange = ConfirmProcessing | ConfirmCancellation | ApplyDirectly

  /** `confirmStatusChange`: a change to processing asks to confirm the inventory deduction,
      processing to cancelled asks to confirm the restoration, anything else is applied. */
  function Decide(currentStatus: string, newStatus: string): (r: StatusChange)
    ensures r == ConfirmProcessing <==> newStatus == Processing
    ensures r == ConfirmCancellation <==> newStatus != Processing && currentStatus == Processing && newStatus == Cancelled
    ensures r == ApplyDirectly <==> newStatus != Processing && !(currentStatus == Processing && newStatus == Cancelled)
  {
    if newStatus == Processing then ConfirmProcessing
    else if currentStatus == Processing && newStatus == Cancelled then ConfirmCancellation
    else ApplyDirectly
  }

  /** Whether the status request is sent: a confirmation dialog sends it only on OK. */
  function RequestSent(currentStatus: string, newStatus: string, confirmed: bool): (sent: bool)
    ensures !confirmed ==> (sent <==> newStatus != Processing && !(currentStatus == Processing && newStatus == Cancelled))
    ensures confirmed ==> sent
  {
    Decide(currentStatus, newStatus) == ApplyDirectly || confirmed
  }

  /** A change to processing never goes out unconfirmed, whatever the current status. */
  lemma ProcessingAlwaysConfirmed(currentStatus: string)
    ensures !RequestSent(currentStatus, Processing, false)
    ensures Decide(currentStatus, Processing) == ConfirmProcessing
  {
  }

  // ---------------------------------------------------------------------------
  // The disabled rules

  /** `statusChanging[id]` is truthy. */
  predicate InFlight(statusChanging: map<string, bool>, id: string) {
    id in statusChanging && statusChanging[id]
  }

  /** The status selector of an order is disabled for the terminal statuses and while a
      change of that order is in flight. */
  predicate SelectorDisabled(o: Order, statusChanging: map<string, bool>) {
    o.statusType == Some(Cancelled) || o.statusType == Some(Delivered) || InFlight(statusChanging, o.id)
  }

  /** Delivered orders cannot be deleted. */
  predicate DeleteDisabled(o: Order) {
    o.statusType == Some(Delivered)
  }

  /** A delivered order is locked both ways; a pending or shipped order with nothing in
      flight can be changed and deleted. */
  lemma LockRules(o: Order, statusChanging: map<string, bool>)
    ensures DeleteDisabled(o) ==> SelectorDisabled(o, statusChanging)
    ensures (o.statusType == Some(Pending) || o.statusType == Some(Shipped)) && !InFlight(statusChanging, o.id) ==>
              !SelectorDisabled(o, statusChanging) && !DeleteDisabled(o)
  {
  }

  // ---------------------------------------------------------------------------
  // filteredOrders and the status tabs

  /** `field?.toLowerCase().includes(q)`: a missing field never matches. */
  predicate FieldMatches(field: Option<string>, q: string) {
    field.Some? && Includes(ToLower(field.value), q)
  }

  /** An order matches the lowered query in its number, customer name, phone or status. */
  predicate Matches(o: Order, q: string) {
    FieldMatches(o.orderNo, q) || FieldMatches(o.customerName, q) ||
    FieldMatches(o.customerPhone, q) || FieldMatches(o.statusType, q)
  }

  /** The filter callback: `null` orders are dropped. */
  predicate Kept(o: Option<Order>, q: string) {
    o.Some? && Matches(o.value, q)
  }

  /** `filteredOrders`. */
  function FilteredOrders(orders: seq<Option<Order>>, searchText: string): (r: seq<Option<Order>>)
    ensures |r| <= |orders|
  {
    var q := ToLower(searchText);
    Filter(orders, o => Kept(o, q))
  }

  /** The search keeps exactly the non-null orders one of whose four fields contains the
      lowered query, in their order. */
  lemma SearchKeeps(orders: seq<Option<Order>>, searchText: string, o: Option<Order>)
    ensures o in FilteredOrders(orders, searchText) <==> o in orders && Kept(o, ToLower(searchText))
    ensures Subsequence(FilteredOrders(orders, searchText), orders)
  {
    var q := ToLower(searchText);
    FilterMembership(orders, o => Kept(o, q), o);
    FilterSubsequence(orders, o => Kept(o, q));
  }

  /** A field matches exactly when the lowered query occurs at some position of the
      lowered field. */
  lemma FieldMatchesAt(field: Option<string>, q: string)
    ensures FieldMatches(field, q) <==> field.Some? && exists k :: OccursAt(ToLower(field.value), q, k)
  {
    if field.Some? {
      IncludesAt(ToLower(field.value), q);
    }
  }

  /** The search is case-insensitive: typing the query in another case keeps the same orders. */
  lemma SearchIgnoresCase(orders: seq<Option<Order>>, a: string, b: string)
    requires ToLower(a) == ToLower(b)
    ensures FilteredOrders(orders, a) == FilteredOrders(orders, b)
  {
  }

  /** An empty search keeps every non-null order that has at least one of the four fields. */
  lemma EmptySearchKeeps(o: Order)
    ensures Matches(o, "") <==> o.orderNo.Some? || o.customerName.Some? || o.customerPhone.Some? || o.statusType.Some?
  {
    if o.orderNo.Some? { assert [] <= ToLower(o.orderNo.value); }
    if o.customerName.Some? { assert [] <= ToLower(o.customerName.value); }
    if o.customerPhone.Some? { assert [] <= ToLower(o.customerPhone.value); }
    if o.statusType.Some? { assert [] <= ToLower(o.statusType.value); }
  }

  /** The tab callback: `order?.status?.type === status`. */
  predicate HasStatus(o: Option<Order>, status: string) {
    o.Some? && o.value.statusType == Some(status)
  }

  /** The orders shown under one status tab. */
  function TabOrders(filtered: seq<Option<Order>>, status: string): (r: seq<Option<Order>>)
    ensures |r| <= |filtered|
  {
    Filter(filtered, o => HasStatus(o, status))
  }

  /** A tab shows exactly the filtered orders of its status, so two tabs share no order. */
  lemma TabContents(filtered: seq<Option<Order>>, status: string, other: string, o: Option<Order>)
    ensures o in TabOrders(filtered, status) <==> o in filtered && HasStatus(o, status)
    ensures status != other ==> !(o in TabOrders(filtered, status) && o in TabOrders(filtered, other))
  {
    FilterMembership(filtered, o => HasStatus(o, status), o);
    FilterMembership(filtered, o => HasStatus(o, other), o);
  }

  // ---------------------------------------------------------------------------
  // The item count

  function ItemQuantity(item: Item): int {
    OrZero(item.quantity)
  }

  /** `record.items?.reduce((acc, item) => acc + (item.quantity || 0), 0)`; nothing is
      shown when the order has no item list. */
  function ItemCount(o: Order): (r: Option<int>)
    ensures r.Some? <==> o.items.Some?
  {
    if o.items.Some? then Some(SumOf(o.items.value, ItemQuantity)) else None
  }

  /** One more item adds its quantity (or nothing, when the quantity is missing); with
      non-negative quantities the count is never negative. */
  lemma ItemCountAppend(o: Order, item: Item)
    requires o.items.Some?
    ensures ItemCount(o.(items := Some(o.items.value + [item]))).value == ItemCount(o).value + ItemQuantity(item)
    ensures item.quantity.None? ==> ItemCount(o.(items := Some(o.items.value + [item]))) == ItemCount(o)
  {
    SumOfAppend(o.items.value, [item], ItemQuantity);
    SumOfSingleton(item, ItemQuantity);
  }

  lemma ItemCountNonNegative(o: Order)
    requires o.items.Some?
    requires forall i :: 0 <= i < |o.items.value| ==> ItemQuantity(o.items.value[i]) >= 0
    ensures ItemCount(o).value >= 0
  {
    SumOfNonNegative(o.items.value, ItemQuantity);
  }

  // ---------------------------------------------------------------------------
  // Messages after a status change

  const InsufficientStock := "Insufficient stock"
  const InsufficientStockMessage := "Cannot process order: Insufficient stock available"
  const GenericFailure := "Failed to update status"

  /** The message of a failed status change from the server's `message`, if any. */
  function FailureMessage(serverMessage: Option<string>): (r: string)
    ensures serverMessage.Some? && Includes(serverMessage.value, InsufficientStock) ==> r == InsufficientStockMessage
    ensures serverMessage.Some? && serverMessage.value != "" && !Includes(serverMessage.value, InsufficientStock) ==> r == serverMessage.value
    ensures serverMessage.None? || serverMessage == Some("") ==> r == GenericFailure
    ensures r != ""
  {
    if serverMessage.Some? && Includes(serverMessage.value, InsufficientStock) then InsufficientStockMessage
    else if serverMessage.Some? && serverMessage.value != "" then serverMessage.value
    else GenericFailure
  }

  /** The message of a successful status change. */
  function SuccessMessage(status: string): (r: string)
    ensures status == Processing ==> r == "Order processing started - product quantities updated"
    ensures status == Cancelled ==> r == "Order cancelled - product quantities restored"
    ensures status != Processing && status != Cancelled ==> r == "Status updated successfully"
  {
    if status == Processing then "Order processing started - product quantities updated"
    else if status == Cancelled then "Order cancelled - product quantities restored"
    else "Status updated successfully"
  }

  // ---------------------------------------------------------------------------
  // The component

  /** The answer to `GET /orders`: an array, an object with an `orders` array, or a failure. */
  datatype OrdersResponse =
    | OrdersArray(list: seq<Option<Order>>)
    | OrdersObject(orders: Option<seq<Option<Order>>>)
    | OrdersFailed

  /** `Array.isArray(data) ? data : data.orders || []`, and `[]` after a failure. */
  function OrdersFrom(response: OrdersResponse): (r: seq<Option<Order>>)
    ensures response.OrdersArray? ==> r == response.list
    ensures response.OrdersObject? && response.orders.Some? ==> r == response.orders.value
    ensures response.OrdersFailed? || response == OrdersObject(None) ==> r == []
  {
    match response
    case OrdersArray(list) => list
    case OrdersObject(orders) => if orders.Some? then orders.value else []
    case OrdersFailed => []
  }

  /** The answer to `PUT /orders/{id}/status`. */
  datatype StatusResponse = StatusUpdated | StatusRejected(serverMessage: Option<string>)

  /** The order list, the search text and the `statusChanging` flags. */
  class OrderBoard {
    var orders: seq<Option<Order>>
    var searchText: string
    var statusChanging: map<string, bool>
    var loading: bool

    constructor ()
      ensures orders == [] && searchText == "" && statusChanging == map[] && !loading
    {
      orders, searchText, statusChanging, loading := [], "", map[], false;
    }

    /** What the table shows. */
    function Shown(): seq<Option<Order>>
      reads this
    {
      FilteredOrders(orders, searchText)
    }

    /** `fetchOrders` with its answer. */
    method FetchOrders(response: OrdersResponse)
      modifies this
      ensures orders == OrdersFrom(response)
      ensures searchText == old(searchText) && statusChanging == old(statusChanging) && !loading
    {
      orders := OrdersFrom(response);
      loading := false;
    }

    /** The search input stores the raw text; lowering happens in the filter. */
    method SetSearchText(text: string)
      modifies this
      ensures searchText == text
      ensures orders == old(orders) && statusChanging == old(statusChanging) && loading == old(loading)
    {
      searchText := text;
    }

    /** `handleStatusChange` before the request: the order's flag is raised, which locks
        its selector; no other flag changes. */
    method StartStatusChange(orderId: string)
      modifies this
      ensures statusChanging == old(statusChanging)[orderId := true]
      ensures forall o: Order :: o.id == orderId ==> SelectorDisabled(o, statusChanging)
      ensures forall id :: id != orderId ==> (InFlight(statusChanging, id) <==> InFlight(old(statusChanging), id))
      ensures orders == old(orders) && searchText == old(searchText) && loading == old(loading)
    {
      statusChanging := statusChanging[orderId := true];
    }

    /** `handleStatusChange` after the request, whatever its outcome: the message is chosen,
        a success is followed by `fetchOrders` (answered by `refetch`), and the order's flag
        is cleared; no other flag changes. */
    method FinishStatusChange(orderId: string, status: string, response: StatusResponse, refetch: OrdersResponse)
      returns (notice: string)
      modifies this
      ensures statusChanging == old(statusChanging)[orderId := false]
      ensures !InFlight(statusChanging, orderId)
      ensures forall id :: id != orderId ==> (InFlight(statusChanging, id) <==> InFlight(old(statusChanging), id))
      ensures response.StatusUpdated? ==> notice == SuccessMessage(status)
      ensures response.StatusRejected? ==> notice == FailureMessage(response.serverMessage)
      ensures response.StatusUpdated? ==> orders == OrdersFrom(refetch) && !loading
      ensures response.StatusRejected? ==> orders == old(orders) && loading == old(loading)
      ensures searchText == old(searchText)
    {
      if response.StatusUpdated? {
        notice := SuccessMessage(status);
        FetchOrders(refetch);
      } else {
        notice := FailureMessage(response.serverMessage);
      }
      statusChanging := statusChanging[orderId := false];
    }

    /** A selection in the status selector of order `o`: the decision, the dialog's answer,
        and, when the request goes out, the flag raised and cleared around it. */
    method ChangeStatus(o: Order, newStatus: string, confirmed: bool, response: StatusResponse, refetch: OrdersResponse)
      returns (sent: bool, notice: string)
      modifies this
      ensures sent == RequestSent(if o.statusType.Some? then o.statusType.value else "", newStatus, confirmed)
      ensures sent ==> statusChanging == old(statusChanging)[o.id := false]
      ensures !sent ==> statusChanging == old(statusChanging) && notice == ""
      ensures sent && response.StatusUpdated? ==> notice == SuccessMessage(newStatus)
      ensures sent && response.StatusRejected? ==> notice == FailureMessage(response.serverMessage)
      ensures sent && response.StatusUpdated? ==> orders == OrdersFrom(refetch) && !loading
      ensures !(sent && response.StatusUpdated?) ==> orders == old(orders) && loading == old(loading)
      ensures searchText == old(searchText)
    {
      var current := if o.statusType.Some? then o.statusType.value else "";
      sent := RequestSent(current, newStatus, confirmed);
      if sent {
        StartStatusChange(o.id);
        notice := FinishStatusChange(o.id, newStatus, response, refetch);
      } else {
        notice := "";
      }
    }
  }
}
