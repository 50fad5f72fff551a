/** The customer-orders modal (src/components/CustomerOrdersModal.js): its
    fetch/clear effect, the body it shows, the order-status styling and the
    three-item preview of an order. */
module CustomerOrdersModal {
  import opened Wrappers
  import opened Text
  import opened Entities
  import opened Effects
  import Catalog

  // ---------------------------------------------------------------------
  // The fetch/clear effect (lines 12-22)

  const OrdersPageSize: int := 20

  /** What the effect does when it runs: fetch the first 20 orders of the
      customer it was opened for. `customer` is that customer's id, or
      `None` when there is none. */
  function Setup(open: bool, customer: Option<int>): (effects: seq<Effect>)
    ensures effects != [] <==> open && customer.Some?
    ensures effects != [] ==> effects == [FetchCustomerOrders(customer.value, OrdersPageSize, 1)]
  {
    if open && customer.Some? then [FetchCustomerOrders(customer.value, OrdersPageSize, 1)] else []
  }

  /** What the effect's cleanup does: it sees the `open` of the render that
      set it up, and clears the store's customer orders only if that was
      closed. */
  function Cleanup(wasOpen: bool): (effects: seq<Effect>)
    ensures effects != [] <==> !wasOpen
    ensures !wasOpen ==> effects == [ClearCustomerOrders]
  {
    if wasOpen then [] else [ClearCustomerOrders]
  }

  /** A change of `open` or `customer`: the old effect's cleanup, then the
      new effect. */
  function Rerun(wasOpen: bool, open: bool, customer: Option<int>): seq<Effect> {
    Cleanup(wasOpen) + Setup(open, customer)
  }

  /** Closing the modal dispatches nothing: the cleanup that runs still
      sees the modal open, so the previous customer's orders stay cached. */
  lemma ClosingKeepsOrders(customer: Option<int>)
    ensures Rerun(true, false, customer) == []
  {
  }

  /** Reopening the modal for a customer first clears what the store
      holds, then fetches that customer's orders. */
  lemma ReopeningClearsThenFetches(id: int)
    ensures Rerun(false, true, Some(id)) == [ClearCustomerOrders, FetchCustomerOrders(id, OrdersPageSize, 1)]
  {
  }

  // ---------------------------------------------------------------------
  // The body (lines 24, 85-173)

  datatype Body = Loading | ErrorBody(message: string) | OrderList(orders: seq<Order>) | NoOrders

  /** The body: nothing when closed; otherwise loading, then an error, then
      the orders if there are any, else the empty state. */
  function Render(open: bool, s: Catalog.CustomerOrdersSlice): (r: Option<Body>)
    ensures r.None? <==> !open
    ensures r == Some(Loading) <==> open && s.isLoading
    ensures r.Some? && r.value.ErrorBody? <==> open && !s.isLoading && Truthy(s.error)
    ensures r.Some? && r.value.ErrorBody? ==> r.value.message == s.error.value
    ensures r.Some? && r.value.OrderList? <==> open && !s.isLoading && !Truthy(s.error) && |s.orders.items| > 0
    ensures r.Some? && r.value.OrderList? ==> r.value.orders == s.orders.items
    ensures r == Some(NoOrders) <==> open && !s.isLoading && !Truthy(s.error) && |s.orders.items| == 0
  {
    if !open then None
    else if s.isLoading then Some(Loading)
    else if Truthy(s.error) then Some(ErrorBody(s.error.value))
    else if |s.orders.items| > 0 then Some(OrderList(s.orders.items))
    else Some(NoOrders)
  }

  /** While the fetch runs the modal shows the spinner; once it fulfils it
      shows the fetched orders, or the empty state when there are none,
      whatever the store held before. */
  lemma FetchThenShow(s: Catalog.DataState, payload: Catalog.CustomerOrdersPayload)
    ensures var pending := Catalog.Reduce(s, Catalog.Pending(Catalog.CustomerOrdersSub));
            var done := Catalog.Reduce(pending, Catalog.CustomerOrdersFulfilled(payload));
            && Render(true, pending.customerOrders) == Some(Loading)
            && Render(true, done.customerOrders) ==
               Some(if |payload.orders.items| > 0 then OrderList(payload.orders.items) else NoOrders)
  {
    var pending := Catalog.Reduce(s, Catalog.Pending(Catalog.CustomerOrdersSub));
    assert pending.customerOrders.isLoading && pending.customerOrders.error.None?;
  }

  /** A failed fetch shows its message. */
  lemma FailureShowsMessage(s: Catalog.DataState, message: string)
    requires message != ""
    ensures Render(true, Catalog.Reduce(s, Catalog.Rejected(Catalog.CustomerOrdersSub, message)).customerOrders) ==
            Some(ErrorBody(message))
  {
  }

  // ---------------------------------------------------------------------
  // Order status styling (lines 36-64)

  datatype StatusClass = Completed | Processing | Shipped | OtherStatus

  /** The classification both styling functions make, as sets of
      lower-cased status names; an absent status is "other". */
  function ClassifyStatus(status: Option<string>): StatusClass {
    if status.None? then OtherStatus
    else
      var lower := ToLower(status.value);
      if lower in {"complete", "completed"} then Completed
      else if lower in {"processing", "pending"} then Processing
      else if lower == "shipped" then Shipped
      else OtherStatus
  }

  datatype Icon = CheckIcon | ClockIcon | TruckIcon | BoxIcon

  /** `getStatusIcon`, case by case on the lower-cased status. */
  function StatusIcon(status: Option<string>): (icon: Icon)
    ensures icon == IconOf(ClassifyStatus(status))
  {
    if status.None? then BoxIcon
    else
      var lower := ToLower(status.value);
      if lower == "complete" || lower == "completed" then CheckIcon
      else if lower == "processing" || lower == "pending" then ClockIcon
      else if lower == "shipped" then TruckIcon
      else BoxIcon
  }

  /** `getStatusColor`, case by case on the lower-cased status. */
  function StatusColor(status: Option<string>): (color: string)
    ensures color == ColorOf(ClassifyStatus(status))
  {
    if status.None? then "#95a5a6"
    else
      var lower := ToLower(status.value);
      if lower == "complete" || lower == "completed" then "var(--success)"
      else if lower == "processing" || lower == "pending" then "#f39c12"
      else if lower == "shipped" then "#3498db"
      else "#95a5a6"
  }

  function IconOf(c: StatusClass): Icon {
    match c
    case Completed => CheckIcon
    case Processing => ClockIcon
    case Shipped => TruckIcon
    case OtherStatus => BoxIcon
  }

  function ColorOf(c: StatusClass): string {
    match c
    case Completed => "var(--success)"
    case Processing => "#f39c12"
    case Shipped => "#3498db"
    case OtherStatus => "#95a5a6"
  }

  /** Icon and colour always tell the same class: each determines it. */
  lemma IconAndColorAgree(a: Option<string>, b: Option<string>)
    ensures StatusIcon(a) == StatusIcon(b) <==> ClassifyStatus(a) == ClassifyStatus(b)
    ensures StatusColor(a) == StatusColor(b) <==> ClassifyStatus(a) == ClassifyStatus(b)
  {
  }

  /** The styling ignores ASCII case. */
  lemma StatusIgnoresCase(status: string)
    ensures ClassifyStatus(Some(ToLower(status))) == ClassifyStatus(Some(status))
  {
    ToLowerIdempotent(status);
  }

  // ---------------------------------------------------------------------
  // Item preview (lines 142-157)

  datatype Preview = NoItemsSection | ItemsSection(shown: seq<OrderItem>, more: Option<int>)

  const PreviewLimit: int := 3

  /** An order's item section: absent without items; else the first three
      items and, past three, a "+N more" count. */
  function PreviewItems(items: Option<seq<OrderItem>>): (p: Preview)
    ensures p.NoItemsSection? <==> items.None? || |items.value| == 0
    ensures p.ItemsSection? ==>
              && |p.shown| <= PreviewLimit && |p.shown| <= |items.value|
              && p.shown == items.value[..|p.shown|]
              && (|p.shown| == PreviewLimit || |p.shown| == |items.value|)
              && (p.more.Some? <==> |items.value| > PreviewLimit)
              && (p.more.Some? ==> p.more.value == |items.value| - PreviewLimit)
  {
    if items.None? || |items.value| == 0 then NoItemsSection
    else
      var all := items.value;
      var shown := if |all| <= PreviewLimit then all else all[..PreviewLimit];
      ItemsSection(shown, if |all| > PreviewLimit then Some(|all| - PreviewLimit) else None)
  }

  /** Every item is either shown or counted in "+N more", exactly once. */
  lemma PreviewCountsEveryItem(items: seq<OrderItem>)
    requires |items| > 0
    ensures var p := PreviewItems(Some(items));
            p.ItemsSection? && |p.shown| + p.more.GetOr(0) == |items|
  {
  }
}
