/** The store dashboard (component/DashboardHome.js): the orders fetched for a store with the
    removed ones (status id 255) dropped, the metrics computed over them, and the store list
    a store administrator is restricted to. Dates are whole day numbers. */
module DashboardHome {
  import opened JsSemantics

  /** The status id the server gives a removed order. */
  const RemovedStatusID := 255

  /** An order as the dashboard reads it. */
  datatype DashOrder = DashOrder(statusID: int, status: string, totalAmount: int, createDay: int)

  // ---------------------------------------------------------------------------
  // fetchOrdersByStoreID

  /** The outcome of `POST getOrdersByStoreID`. */
  datatype OrdersResponse =
    | OrdersAnswer(status: int, data: seq<DashOrder>)
    | OrdersRequestFailed  // the request threw

  predicate NotRemoved(o: DashOrder) {
    o.statusID != RemovedStatusID
  }

  /** The orders kept from a fetch: those not removed. */
  function Visible(orders: seq<DashOrder>): (r: seq<DashOrder>)
    ensures |r| <= |orders|
  {
    Filter(orders, NotRemoved)
  }

  /** `filteredOrders` after a fetch: the visible orders of a 200 answer, nothing after a
      failure, and the previous list after any other answer. */
  function FilteredOrdersAfter(previous: seq<DashOrder>, response: OrdersResponse): seq<DashOrder> {
    match response
    case OrdersAnswer(status, data) => if status == 200 then Visible(data) else previous
    case OrdersRequestFailed => []
  }

  /** A fetched list holds exactly the orders of the answer that are not removed, in their
      order; a failed request leaves nothing. */
  lemma FetchKeepsVisibleOrders(previous: seq<DashOrder>, data: seq<DashOrder>, o: DashOrder)
    ensures o in FilteredOrdersAfter(previous, OrdersAnswer(200, data)) <==>
              o in data && o.statusID != RemovedStatusID
    ensures Subsequence(FilteredOrdersAfter(previous, OrdersAnswer(200, data)), data)
    ensures FilteredOrdersAfter(previous, OrdersRequestFailed) == []
  {
    FilterMembership(data, NotRemoved, o);
    FilterSubsequence(data, NotRemoved);
  }

  /** A fetch never brings a removed order onto the dashboard, so starting from the empty
      list none is ever shown. */
  lemma {:induction false} NoRemovedOrderShown(previous: seq<DashOrder>, response: OrdersResponse)
    requires forall o :: o in previous ==> o.statusID != RemovedStatusID
    ensures forall o :: o in FilteredOrdersAfter(previous, response) ==> o.statusID != RemovedStatusID
  {
    if response.OrdersAnswer? && response.status == 200 {
      forall o | o in FilteredOrdersAfter(previous, response)
        ensures o.statusID != RemovedStatusID
      {
        FilterMembership(response.data, NotRemoved, o);
      }
    }
  }

  // ---------------------------------------------------------------------------
  // The metrics

  predicate IsCompleted(o: DashOrder) {
    o.status == "completed"
  }

  function AmountOf(o: DashOrder): int {
    o.totalAmount
  }

  /** `dayjs(order.createTime).format(...) === today`, on day numbers. */
  function CreatedOn(today: int): DashOrder -> bool {
    (o: DashOrder) => o.createDay == today
  }

  function NotCreatedOn(today: int): DashOrder -> bool {
    (o: DashOrder) => o.createDay != today
  }

  predicate IsRemoved(o: DashOrder) {
    o.statusID == RemovedStatusID
  }

  function TotalOrders(orders: seq<DashOrder>): nat {
    |orders|
  }

  function CompletedOrders(orders: seq<DashOrder>): nat {
    |Filter(orders, IsCompleted)|
  }

  function TotalSales(orders: seq<DashOrder>): int {
    SumOf(orders, AmountOf)
  }

  function TodaysOrders(orders: seq<DashOrder>, today: int): nat {
    |Filter(orders, CreatedOn(today))|
  }

  function TodaysSales(orders: seq<DashOrder>, today: int): int {
    SumOf(Filter(orders, CreatedOn(today)), AmountOf)
  }

  /** The counts never exceed the number of orders shown. */
  lemma CountsBounded(orders: seq<DashOrder>, today: int)
    ensures CompletedOrders(orders) <= TotalOrders(orders)
    ensures TodaysOrders(orders, today) <= TotalOrders(orders)
  {
  }

  /** The completed orders counted are exactly the shown orders whose status is "completed". */
  lemma CompletedAreShownCompleted(orders: seq<DashOrder>, o: DashOrder)
    ensures o in Filter(orders, IsCompleted) <==> o in orders && o.status == "completed"
  {
    FilterMembership(orders, IsCompleted, o);
  }

  /** Total sales are today's sales plus the sales of every other day. */
  lemma TotalSalesSplitsByDay(orders: seq<DashOrder>, today: int)
    ensures TotalSales(orders) ==
              TodaysSales(orders, today) + SumOf(Filter(orders, NotCreatedOn(today)), AmountOf)
  {
    SumOfFilterSplit(orders, CreatedOn(today), NotCreatedOn(today), AmountOf);
  }

  /** With no negative amounts, today's sales never exceed the total sales. */
  lemma TodaysSalesAtMostTotal(orders: seq<DashOrder>, today: int)
    requires forall i :: 0 <= i < |orders| ==> orders[i].totalAmount >= 0
    ensures 0 <= TodaysSales(orders, today) <= TotalSales(orders)
  {
    TotalSalesSplitsByDay(orders, today);
    var others := Filter(orders, NotCreatedOn(today));
    var todays := Filter(orders, CreatedOn(today));
    FilterSubsetOf(orders, NotCreatedOn(today));
    FilterSubsetOf(orders, CreatedOn(today));
    SumOfNonNegative(others, AmountOf);
    SumOfNonNegative(todays, AmountOf);
  }

  /** The sales of the shown orders are the sales of the answer minus those of its removed
      orders. */
  lemma SalesExcludeRemoved(data: seq<DashOrder>)
    ensures TotalSales(Visible(data)) ==
              SumOf(data, AmountOf) - SumOf(Filter(data, IsRemoved), AmountOf)
  {
    SumOfFilterSplit(data, NotRemoved, IsRemoved, AmountOf);
  }

  // ---------------------------------------------------------------------------
  // fetchStoreInfo

  datatype Store = Store(storeID: Option<int>, storeName: string)

  /** The answer to `GET stores`. */
  datatype StoresResponse =
    | StoresArray(stores: seq<Store>)
    | StoresNotArray      // `response.data` is not an array
    | StoresRequestFailed // the request threw

  /** `userStoreID` is truthy. */
  predicate HasStoreID(userStoreID: Option<int>) {
    userStoreID.Some? && userStoreID.value != 0
  }

  /** `storeInfo` after the fetch: a store administrator with a store id sees only the
      stores with that id, anyone else every store; a non-array answer empties the list and
      a failed request leaves it as it was. */
  function StoreInfoAfter(previous: seq<Store>, response: StoresResponse, role: Option<string>,
                          userStoreID: Option<int>): seq<Store>
  {
    match response
    case StoresArray(stores) =>
      if role == Some("storeadmin") && HasStoreID(userStoreID) then
        Filter(stores, (s: Store) => s.storeID == userStoreID)
      else stores
    case StoresNotArray => []
    case StoresRequestFailed => previous
  }

  /** The restriction of a store administrator, and its absence for everyone else. */
  lemma StoreVisibility(previous: seq<Store>, stores: seq<Store>, role: Option<string>,
                        userStoreID: Option<int>, s: Store)
    ensures role == Some("storeadmin") && HasStoreID(userStoreID) ==>
              (s in StoreInfoAfter(previous, StoresArray(stores), role, userStoreID) <==>
               s in stores && s.storeID == userStoreID)
    ensures !(role == Some("storeadmin") && HasStoreID(userStoreID)) ==>
              StoreInfoAfter(previous, StoresArray(stores), role, userStoreID) == stores
    ensures StoreInfoAfter(previous, StoresNotArray, role, userStoreID) == []
    ensures StoreInfoAfter(previous, StoresRequestFailed, role, userStoreID) == previous
  {
    FilterMembership(stores, (s: Store) => s.storeID == userStoreID, s);
  }
}
