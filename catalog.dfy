/** The catalog/data cache (src/store/dataSlice.js): five sub-slices, each
    with its own cached payload, loading flag and error, filled by five
    fetch thunks and by the post-login `fetchAllData`. */
module Catalog {
  import Store
  import opened Wrappers
  import opened Entities

  // ---------------------------------------------------------------------
  // Requests and thunks (dataSlice.js:340-480)

  datatype DataRequest =
    | ProductsQuery(pageSize: int, currentPage: int)
    | CategoriesQuery(parentId: Option<string>)
    | CustomersQuery(pageSize: int, currentPage: int)
    | OrdersQuery(pageSize: int, currentPage: int)
    | CustomerOrdersQuery(customerId: int, pageSize: int, currentPage: int)

  /** What `fetchCustomerOrders` fulfils with: the customer record and,
      beside it, that record's `orders` page. */
  datatype CustomerOrdersPayload = CustomerOrdersPayload(customer: CustomerOrders, orders: Page<Order>)

  /** `fetchProducts({pageSize = 20, currentPage = 1})`. */
  function FetchProducts(token: Option<string>, reply: Reply<Page<Product>>, pageSize: int := 20, currentPage: int := 1): (run: Run<Page<Product>, DataRequest>)
    ensures !Truthy(token) ==> run == Run(Err(NoTokenMessage), [])
    ensures Truthy(token) ==> run.sent == [ProductsQuery(pageSize, currentPage)]
    ensures Truthy(token) && reply.Replied? ==> run.result == Ok(reply.value)
    ensures Truthy(token) && reply.Failed? ==> run.result == Err(OrElse(reply.fault.message, "Failed to fetch products"))
  {
    GuardedRequest(token, ProductsQuery(pageSize, currentPage), reply, "Failed to fetch products")
  }

  /** The `id` variable of the categories query: the parent id when it is truthy, else null. */
  function CategoriesParent(parentId: Option<string>): (id: Option<string>)
    ensures id.Some? <==> Truthy(parentId)
    ensures id.Some? ==> id == parentId
  {
    if Truthy(parentId) then parentId else None
  }

  /** `fetchCategories({parentId = null})`; the payload is the `items` list
      of the `categories` result. */
  function FetchCategories(token: Option<string>, parentId: Option<string>, reply: Reply<seq<Category>>): (run: Run<seq<Category>, DataRequest>)
    ensures !Truthy(token) ==> run == Run(Err(NoTokenMessage), [])
    ensures Truthy(token) ==> run.sent == [CategoriesQuery(CategoriesParent(parentId))]
    ensures Truthy(token) && reply.Replied? ==> run.result == Ok(reply.value)
    ensures Truthy(token) && reply.Failed? ==> run.result == Err(OrElse(reply.fault.message, "Failed to fetch categories"))
  {
    GuardedRequest(token, CategoriesQuery(CategoriesParent(parentId)), reply, "Failed to fetch categories")
  }

  /** `fetchCustomers({pageSize = 20, currentPage = 1})`. */
  function FetchCustomers(token: Option<string>, reply: Reply<Page<Customer>>, pageSize: int := 20, currentPage: int := 1): (run: Run<Page<Customer>, DataRequest>)
    ensures !Truthy(token) ==> run == Run(Err(NoTokenMessage), [])
    ensures Truthy(token) ==> run.sent == [CustomersQuery(pageSize, currentPage)]
    ensures Truthy(token) && reply.Replied? ==> run.result == Ok(reply.value)
    ensures Truthy(token) && reply.Failed? ==> run.result == Err(OrElse(reply.fault.message, "Failed to fetch customers"))
  {
    GuardedRequest(token, CustomersQuery(pageSize, currentPage), reply, "Failed to fetch customers")
  }

  /** `fetchOrders({pageSize = 20, currentPage = 1})`. */
  function FetchOrders(token: Option<string>, reply: Reply<Page<Order>>, pageSize: int := 20, currentPage: int := 1): (run: Run<Page<Order>, DataRequest>)
    ensures !Truthy(token) ==> run == Run(Err(NoTokenMessage), [])
    ensures Truthy(token) ==> run.sent == [OrdersQuery(pageSize, currentPage)]
    ensures Truthy(token) && reply.Replied? ==> run.result == Ok(reply.value)
    ensures Truthy(token) && reply.Failed? ==> run.result == Err(OrElse(reply.fault.message, "Failed to fetch orders"))
  {
    GuardedRequest(token, OrdersQuery(pageSize, currentPage), reply, "Failed to fetch orders")
  }

  /** The message of the TypeError raised by `result.data.customer.orders`
      when the backend returns no such customer (V8's wording). */
  const NullCustomerMessage: string := "Cannot read properties of null (reading 'orders')"

  /** `fetchCustomerOrders({customerId, pageSize = 20, currentPage = 1})`:
      the reply is the `customer` record, which may be null. */
  function FetchCustomerOrders(token: Option<string>, customerId: int, reply: Reply<Option<CustomerOrders>>, pageSize: int := 20, currentPage: int := 1): (run: Run<CustomerOrdersPayload, DataRequest>)
    ensures !Truthy(token) ==> run == Run(Err(NoTokenMessage), [])
    ensures Truthy(token) ==> run.sent == [CustomerOrdersQuery(customerId, pageSize, currentPage)]
    ensures Truthy(token) && reply.Replied? && reply.value.Some? ==>
              run.result == Ok(CustomerOrdersPayload(reply.value.value, reply.value.value.orders))
    ensures Truthy(token) && reply == Replied(None) ==> run.result == Err(NullCustomerMessage)
    ensures Truthy(token) && reply.Failed? ==> run.result == Err(OrElse(reply.fault.message, "Failed to fetch customer orders"))
  {
    var request := CustomerOrdersQuery(customerId, pageSize, currentPage);
    if !Truthy(token) then Run(Err(NoTokenMessage), [])
    else match reply
      case Failed(f) => Run(Err(OrElse(f.message, "Failed to fetch customer orders")), [request])
      case Replied(None) => Run(Err(NullCustomerMessage), [request])
      case Replied(Some(c)) => Run(Ok(CustomerOrdersPayload(c, c.orders)), [request])
  }

  /** The `fetchAllData` payload; an entry is `None` (null) when its fetch
      was rejected or never made. */
  datatype AllData = AllData(
    products: Option<Page<Product>>,
    categories: Option<seq<Category>>,
    customers: Option<Page<Customer>>,
    orders: Option<Page<Order>>)

  /** The settled outcome of a child thunk, as `Promise.allSettled` reports it. */
  function Settled<T>(r: Result<T>): (o: Option<T>)
    ensures o.Some? <==> r.Ok?
    ensures r.Ok? ==> o == Some(r.value)
  {
    if r.Ok? then Some(r.value) else None
  }

  /** The two child fetches `fetchAllData` makes: 50 products of page 1,
      and the children of category "2". */
  const AllDataProductsPageSize: int := 50
  const AllDataCategoriesParent: string := "2"

  /** `fetchAllData()` composes its payload from the two settled children;
      it never rejects, and customers and orders are never requested. */
  function FetchAllData(products: Result<Page<Product>>, categories: Result<seq<Category>>): (r: Result<AllData>)
    ensures r.Ok?
    ensures r.value.customers.None? && r.value.orders.None?
    ensures r.value.products.Some? <==> products.Ok?
    ensures r.value.categories.Some? <==> categories.Ok?
    ensures products.Ok? ==> r.value.products == Some(products.value)
    ensures categories.Ok? ==> r.value.categories == Some(categories.value)
  {
    Ok(AllData(Settled(products), Settled(categories), None, None))
  }

  /** The two requests `fetchAllData` causes when a token is present. */
  lemma AllDataRequests(token: Option<string>, productsReply: Reply<Page<Product>>, categoriesReply: Reply<seq<Category>>)
    requires Truthy(token)
    ensures FetchProducts(token, productsReply, AllDataProductsPageSize, 1).sent == [ProductsQuery(50, 1)]
    ensures FetchCategories(token, Some(AllDataCategoriesParent), categoriesReply).sent == [CategoriesQuery(Some("2"))]
  {
  }

  // ---------------------------------------------------------------------
  // The slice (dataSlice.js:482-665)

  /** A paginated sub-slice: `{items, total_count, page_info, isLoading, error}`. */
  datatype Paged<T> = Paged(items: seq<T>, totalCount: int, pageInfo: Option<PageInfo>, isLoading: bool, error: Option<string>)

  datatype CategoriesSlice = CategoriesSlice(items: seq<Category>, isLoading: bool, error: Option<string>)

  datatype CustomerOrdersSlice = CustomerOrdersSlice(
    customer: Option<CustomerOrders>,
    orders: Page<Order>,
    isLoading: bool,
    error: Option<string>)

  datatype DataState = DataState(
    products: Paged<Product>,
    categories: CategoriesSlice,
    customers: Paged<Customer>,
    orders: Paged<Order>,
    customerOrders: CustomerOrdersSlice,
    isInitialized: bool)

  function EmptyPaged<T>(): Paged<T> {
    Paged([], 0, None, false, None)
  }

  const InitialCategories: CategoriesSlice := CategoriesSlice([], false, None)
  const InitialCustomerOrders: CustomerOrdersSlice := CustomerOrdersSlice(None, Page([], 0, None), false, None)

  const Initial: DataState :=
    DataState(EmptyPaged(), InitialCategories, EmptyPaged(), EmptyPaged(), InitialCustomerOrders, false)

  /** The five sub-slices. */
  datatype Sub = ProductsSub | CategoriesSub | CustomersSub | OrdersSub | CustomerOrdersSub

  /** One sub-slice of a state, as a value. */
  datatype SubState =
    | ProductsPart(products: Paged<Product>)
    | CategoriesPart(categories: CategoriesSlice)
    | CustomersPart(customers: Paged<Customer>)
    | OrdersPart(orders: Paged<Order>)
    | CustomerOrdersPart(customerOrders: CustomerOrdersSlice)

  function Part(s: DataState, k: Sub): SubState {
    match k
    case ProductsSub => ProductsPart(s.products)
    case CategoriesSub => CategoriesPart(s.categories)
    case CustomersSub => CustomersPart(s.customers)
    case OrdersSub => OrdersPart(s.orders)
    case CustomerOrdersSub => CustomerOrdersPart(s.customerOrders)
  }

  function LoadingOf(s: DataState, k: Sub): bool {
    match k
    case ProductsSub => s.products.isLoading
    case CategoriesSub => s.categories.isLoading
    case CustomersSub => s.customers.isLoading
    case OrdersSub => s.orders.isLoading
    case CustomerOrdersSub => s.customerOrders.isLoading
  }

  function ErrorOf(s: DataState, k: Sub): Option<string> {
    match k
    case ProductsSub => s.products.error
    case CategoriesSub => s.categories.error
    case CustomersSub => s.customers.error
    case OrdersSub => s.orders.error
    case CustomerOrdersSub => s.customerOrders.error
  }

  /** The sub-slice `k` holds the same cached payload in both states. */
  predicate SameData(r: DataState, s: DataState, k: Sub) {
    match k
    case ProductsSub =>
      r.products.items == s.products.items && r.products.totalCount == s.products.totalCount &&
      r.products.pageInfo == s.products.pageInfo
    case CategoriesSub => r.categories.items == s.categories.items
    case CustomersSub =>
      r.customers.items == s.customers.items && r.customers.totalCount == s.customers.totalCount &&
      r.customers.pageInfo == s.customers.pageInfo
    case OrdersSub =>
      r.orders.items == s.orders.items && r.orders.totalCount == s.orders.totalCount &&
      r.orders.pageInfo == s.orders.pageInfo
    case CustomerOrdersSub =>
      r.customerOrders.customer == s.customerOrders.customer && r.customerOrders.orders == s.customerOrders.orders
  }

  /** Nothing outside sub-slice `k` differs. */
  predicate OnlyTouches(r: DataState, s: DataState, k: Sub) {
    r.isInitialized == s.isInitialized && forall j: Sub :: j != k ==> Part(r, j) == Part(s, j)
  }

  /** The four sub-slices `fetchAllData` drives (not customer orders). */
  predicate AllDataSub(k: Sub) {
    k != CustomerOrdersSub
  }

  datatype Action =
    | Pending(sub: Sub)
    | Rejected(sub: Sub, message: string)
    | ProductsFulfilled(productsPage: Page<Product>)
    | CategoriesFulfilled(categoryItems: seq<Category>)
    | CustomersFulfilled(customersPage: Page<Customer>)
    | OrdersFulfilled(ordersPage: Page<Order>)
    | CustomerOrdersFulfilled(payload: CustomerOrdersPayload)
    | AllPending
    | AllFulfilled(data: AllData)
    | AllRejected(message: string)
    | ClearDataErrors
    | ClearAllData
    | ClearCustomerOrders

  /** The actions of one fetch thunk, and the sub-slice they belong to. */
  predicate IsFetchAction(a: Action) {
    a.Pending? || a.Rejected? || a.ProductsFulfilled? || a.CategoriesFulfilled? ||
    a.CustomersFulfilled? || a.OrdersFulfilled? || a.CustomerOrdersFulfilled?
  }

  function SubOf(a: Action): Sub
    requires IsFetchAction(a)
  {
    match a
    case Pending(k) => k
    case Rejected(k, _) => k
    case ProductsFulfilled(_) => ProductsSub
    case CategoriesFulfilled(_) => CategoriesSub
    case CustomersFulfilled(_) => CustomersSub
    case OrdersFulfilled(_) => OrdersSub
    case CustomerOrdersFulfilled(_) => CustomerOrdersSub
  }

  function WithFlags(s: DataState, k: Sub, loading: bool, error: Option<string>): DataState {
    match k
    case ProductsSub => s.(products := s.products.(isLoading := loading, error := error))
    case CategoriesSub => s.(categories := s.categories.(isLoading := loading, error := error))
    case CustomersSub => s.(customers := s.customers.(isLoading := loading, error := error))
    case OrdersSub => s.(orders := s.orders.(isLoading := loading, error := error))
    case CustomerOrdersSub => s.(customerOrders := s.customerOrders.(isLoading := loading, error := error))
  }

  function WithPage<T>(p: Paged<T>, page: Page<T>): Paged<T> {
    p.(items := page.items, totalCount := page.totalCount, pageInfo := page.pageInfo)
  }

  /** `if (payload.x) { ...overwrite... }`. */
  function MergePage<T>(p: Paged<T>, page: Option<Page<T>>): Paged<T> {
    if page.Some? then WithPage(p, page.value) else p
  }

  /** The actions of `fetchAllData`. */
  predicate IsLoadAction(a: Action) {
    a.AllPending? || a.AllFulfilled? || a.AllRejected?
  }

  /** The cases of the five single fetches (lines 548-618): each touches
      only its own sub-slice; pending sets loading and clears the error,
      rejected stores the message and keeps the cache, fulfilled replaces
      the cache and stops loading. */
  function ReduceFetch(s: DataState, a: Action): (r: DataState)
    requires IsFetchAction(a)
    ensures OnlyTouches(r, s, SubOf(a))
    ensures a.Pending? ==> LoadingOf(r, a.sub) && ErrorOf(r, a.sub).None? && SameData(r, s, a.sub)
    ensures a.Rejected? ==> !LoadingOf(r, a.sub) && ErrorOf(r, a.sub) == Some(a.message) && SameData(r, s, a.sub)
    ensures !a.Pending? && !a.Rejected? ==>
              !LoadingOf(r, SubOf(a)) && ErrorOf(r, SubOf(a)) == ErrorOf(s, SubOf(a))
    ensures a.ProductsFulfilled? ==>
              r.products.items == a.productsPage.items && r.products.totalCount == a.productsPage.totalCount &&
              r.products.pageInfo == a.productsPage.pageInfo
    ensures a.CategoriesFulfilled? ==> r.categories.items == a.categoryItems
    ensures a.CustomersFulfilled? ==>
              r.customers.items == a.customersPage.items && r.customers.totalCount == a.customersPage.totalCount &&
              r.customers.pageInfo == a.customersPage.pageInfo
    ensures a.OrdersFulfilled? ==>
              r.orders.items == a.ordersPage.items && r.orders.totalCount == a.ordersPage.totalCount &&
              r.orders.pageInfo == a.ordersPage.pageInfo
    ensures a.CustomerOrdersFulfilled? ==>
              r.customerOrders.customer == Some(a.payload.customer) && r.customerOrders.orders == a.payload.orders
  {
    match SubOf(a)
    case ProductsSub => s.(products := ProductsStep(s.products, a))
    case CategoriesSub => s.(categories := CategoriesStep(s.categories, a))
    case CustomersSub => s.(customers := CustomersStep(s.customers, a))
    case OrdersSub => s.(orders := OrdersStep(s.orders, a))
    case CustomerOrdersSub => s.(customerOrders := CustomerOrdersStep(s.customerOrders, a))
  }

  /** One fetch's three cases on its own sub-slice; each reads nothing else. */
  function ProductsStep(p: Paged<Product>, a: Action): Paged<Product>
    requires IsFetchAction(a) && SubOf(a) == ProductsSub
  {
    if a.Pending? then p.(isLoading := true, error := None)
    else if a.Rejected? then p.(isLoading := false, error := Some(a.message))
    else WithPage(p, a.productsPage).(isLoading := false)
  }

  function CategoriesStep(p: CategoriesSlice, a: Action): CategoriesSlice
    requires IsFetchAction(a) && SubOf(a) == CategoriesSub
  {
    if a.Pending? then p.(isLoading := true, error := None)
    else if a.Rejected? then p.(isLoading := false, error := Some(a.message))
    else p.(isLoading := false, items := a.categoryItems)
  }

  function CustomersStep(p: Paged<Customer>, a: Action): Paged<Customer>
    requires IsFetchAction(a) && SubOf(a) == CustomersSub
  {
    if a.Pending? then p.(isLoading := true, error := None)
    else if a.Rejected? then p.(isLoading := false, error := Some(a.message))
    else WithPage(p, a.customersPage).(isLoading := false)
  }

  function OrdersStep(p: Paged<Order>, a: Action): Paged<Order>
    requires IsFetchAction(a) && SubOf(a) == OrdersSub
  {
    if a.Pending? then p.(isLoading := true, error := None)
    else if a.Rejected? then p.(isLoading := false, error := Some(a.message))
    else WithPage(p, a.ordersPage).(isLoading := false)
  }

  function CustomerOrdersStep(p: CustomerOrdersSlice, a: Action): CustomerOrdersSlice
    requires IsFetchAction(a) && SubOf(a) == CustomerOrdersSub
  {
    if a.Pending? then p.(isLoading := true, error := None)
    else if a.Rejected? then p.(isLoading := false, error := Some(a.message))
    else p.(isLoading := false, customer := Some(a.payload.customer), orders := a.payload.orders)
  }

  /** The cases of `fetchAllData` (lines 620-665): they drive the flags of
      the four sub-slices it loads and never touch customer orders;
      rejection writes one message to all four errors; fulfilment
      overwrites only the entries present in the payload and marks the
      store initialized. */
  function ReduceLoad(s: DataState, a: Action): (r: DataState)
    requires IsLoadAction(a)
    ensures r.customerOrders == s.customerOrders
    ensures a.AllPending? ==>
              r.isInitialized == s.isInitialized &&
              forall k: Sub :: AllDataSub(k) ==> LoadingOf(r, k) && ErrorOf(r, k) == ErrorOf(s, k) && SameData(r, s, k)
    ensures a.AllFulfilled? ==>
              r.isInitialized &&
              (forall k: Sub :: AllDataSub(k) ==> !LoadingOf(r, k) && ErrorOf(r, k) == ErrorOf(s, k)) &&
              (a.data.products.None? ==> SameData(r, s, ProductsSub)) &&
              (a.data.products.Some? ==>
                 && r.products.items == a.data.products.value.items
                 && r.products.totalCount == a.data.products.value.totalCount
                 && r.products.pageInfo == a.data.products.value.pageInfo) &&
              (a.data.categories.None? ==> SameData(r, s, CategoriesSub)) &&
              (a.data.categories.Some? ==> r.categories.items == a.data.categories.value) &&
              (a.data.customers.None? ==> SameData(r, s, CustomersSub)) &&
              (a.data.customers.Some? ==>
                 && r.customers.items == a.data.customers.value.items
                 && r.customers.totalCount == a.data.customers.value.totalCount
                 && r.customers.pageInfo == a.data.customers.value.pageInfo) &&
              (a.data.orders.None? ==> SameData(r, s, OrdersSub)) &&
              (a.data.orders.Some? ==>
                 && r.orders.items == a.data.orders.value.items
                 && r.orders.totalCount == a.data.orders.value.totalCount
                 && r.orders.pageInfo == a.data.orders.value.pageInfo)
    ensures a.AllRejected? ==>
              r.isInitialized == s.isInitialized &&
              forall k: Sub :: AllDataSub(k) ==> !LoadingOf(r, k) && ErrorOf(r, k) == Some(a.message) && SameData(r, s, k)
  {
    match a
    case AllPending =>
      s.(products := s.products.(isLoading := true),
         categories := s.categories.(isLoading := true),
         customers := s.customers.(isLoading := true),
         orders := s.orders.(isLoading := true))
    case AllFulfilled(data) =>
      s.(products := MergePage(s.products, data.products).(isLoading := false),
         categories := (if data.categories.Some? then s.categories.(items := data.categories.value) else s.categories).(isLoading := false),
         customers := MergePage(s.customers, data.customers).(isLoading := false),
         orders := MergePage(s.orders, data.orders).(isLoading := false),
         isInitialized := true)
    case AllRejected(m) =>
      s.(products := s.products.(isLoading := false, error := Some(m)),
         categories := s.categories.(isLoading := false, error := Some(m)),
         customers := s.customers.(isLoading := false, error := Some(m)),
         orders := s.orders.(isLoading := false, error := Some(m)))
  }

  /** The three plain reducers (lines 526-543): clearing the errors keeps
      every flag and cache; clearing all data restores the initial state;
      clearing customer orders resets that sub-slice alone. */
  function ReduceClear(s: DataState, a: Action): (r: DataState)
    requires a.ClearDataErrors? || a.ClearAllData? || a.ClearCustomerOrders?
    ensures a.ClearDataErrors? ==>
              r.isInitialized == s.isInitialized &&
              forall k: Sub :: ErrorOf(r, k).None? && LoadingOf(r, k) == LoadingOf(s, k) && SameData(r, s, k)
    ensures a.ClearAllData? ==> r == Initial
    ensures a.ClearCustomerOrders? ==> OnlyTouches(r, s, CustomerOrdersSub) && r.customerOrders == InitialCustomerOrders
  {
    match a
    case ClearDataErrors =>
      s.(products := s.products.(error := None),
         categories := s.categories.(error := None),
         customers := s.customers.(error := None),
         orders := s.orders.(error := None),
         customerOrders := s.customerOrders.(error := None))
    case ClearAllData => Initial
    case ClearCustomerOrders => s.(customerOrders := InitialCustomerOrders)
  }

  /** The slice reducer: each action goes to the group that handles it. */
  function Reduce(s: DataState, a: Action): DataState {
    if IsFetchAction(a) then ReduceFetch(s, a)
    else if IsLoadAction(a) then ReduceLoad(s, a)
    else ReduceClear(s, a)
  }

  /** The action a settled child fetch dispatches. */
  function ProductsSettled(r: Result<Page<Product>>): Action {
    if r.Ok? then ProductsFulfilled(r.value) else Rejected(ProductsSub, r.message)
  }

  function CategoriesSettled(r: Result<seq<Category>>): Action {
    if r.Ok? then CategoriesFulfilled(r.value) else Rejected(CategoriesSub, r.message)
  }

  /** Two fetches of different sub-slices commute, so the order in which
      overlapping fetches of different kinds settle does not matter. */
  lemma FetchesCommute(s: DataState, a: Action, b: Action)
    requires IsFetchAction(a) && IsFetchAction(b) && SubOf(a) != SubOf(b)
    ensures Reduce(Reduce(s, a), b) == Reduce(Reduce(s, b), a)
  {
    var sa, sb := ReduceFetch(s, a), ReduceFetch(s, b);
    assert Reduce(s, a) == sa && Reduce(s, b) == sb;
    assert Reduce(sa, b) == ReduceFetch(sa, b) && Reduce(sb, a) == ReduceFetch(sb, a);
    FetchFetchCommute(s, a, b);
  }

  lemma FetchFetchCommute(s: DataState, a: Action, b: Action)
    requires IsFetchAction(a) && IsFetchAction(b) && SubOf(a) != SubOf(b)
    ensures ReduceFetch(ReduceFetch(s, a), b) == ReduceFetch(ReduceFetch(s, b), a)
  {
  }

  /** The state after the post-login load: `fetchAllData` pending, its two
      children pending, the children settling in either order, then
      `fetchAllData` fulfilled with the payload it composed. Each of the
      two sub-slices holds the fetched items or, when its fetch failed,
      its old items and the failure; customers and orders keep their
      cache; the store is initialized and nothing is loading. */
  lemma {:induction false} PostLoginLoad(s: DataState, products: Result<Page<Product>>, categories: Result<seq<Category>>, productsFirst: bool)
    ensures
      var settled := if productsFirst then [ProductsSettled(products), CategoriesSettled(categories)]
                     else [CategoriesSettled(categories), ProductsSettled(products)];
      var r := ReduceAll(s, [AllPending, Pending(ProductsSub), Pending(CategoriesSub)] + settled +
                            [AllFulfilled(FetchAllData(products, categories).value)]);
      && r.isInitialized
      && (forall k: Sub :: AllDataSub(k) ==> !LoadingOf(r, k))
      && r.products.items == (if products.Ok? then products.value.items else s.products.items)
      && r.products.error == (if products.Ok? then None else Some(products.message))
      && r.categories.items == (if categories.Ok? then categories.value else s.categories.items)
      && r.categories.error == (if categories.Ok? then None else Some(categories.message))
      && SameData(r, s, CustomersSub) && r.customers.error == s.customers.error
      && SameData(r, s, OrdersSub) && r.orders.error == s.orders.error
      && r.customerOrders == s.customerOrders
  {
    var sp := ProductsSettled(products);
    var sc := CategoriesSettled(categories);
    var done := AllFulfilled(FetchAllData(products, categories).value);
    var s3 := Reduce(Reduce(Reduce(s, AllPending), Pending(ProductsSub)), Pending(CategoriesSub));
    LoadSequence(s, sp, sc, done, productsFirst);
    AfterSettles(s, products, categories);
    FinalMerge(s, Reduce(Reduce(s3, sp), sc), products, categories);
  }

  /** The load's six actions, run in either settle order, end where the
      products-first order ends. */
  lemma LoadSequence(s: DataState, sp: Action, sc: Action, done: Action, productsFirst: bool)
    requires IsFetchAction(sp) && IsFetchAction(sc) && SubOf(sp) != SubOf(sc)
    ensures var settled := if productsFirst then [sp, sc] else [sc, sp];
            var s3 := Reduce(Reduce(Reduce(s, AllPending), Pending(ProductsSub)), Pending(CategoriesSub));
            ReduceAll(s, [AllPending, Pending(ProductsSub), Pending(CategoriesSub)] + settled + [done]) ==
            Reduce(Reduce(Reduce(s3, sp), sc), done)
  {
    var settled := if productsFirst then [sp, sc] else [sc, sp];
    var s3 := Reduce(Reduce(Reduce(s, AllPending), Pending(ProductsSub)), Pending(CategoriesSub));
    FetchesCommute(s3, sp, sc);
    var pending := [AllPending, Pending(ProductsSub), Pending(CategoriesSub)];
    Store.ReplayAppend(Reduce, s, pending + settled, [done]);
    Store.ReplayAppend(Reduce, s, pending, settled);
    assert pending == [AllPending] + [Pending(ProductsSub), Pending(CategoriesSub)];
    Store.ReplayAppend(Reduce, s, [AllPending], [Pending(ProductsSub), Pending(CategoriesSub)]);
    Store.ReplayOne(Reduce, s, AllPending);
    Store.ReplayTwo(Reduce, Reduce(s, AllPending), Pending(ProductsSub), Pending(CategoriesSub));
    Store.ReplayTwo(Reduce, s3, settled[0], settled[1]);
    Store.ReplayOne(Reduce, Reduce(Reduce(s3, sp), sc), done);
  }

  /** What both fetches leave behind: each fetched sub-slice holds its new
      items, or its old items and the failure; the other three keep their
      data and errors. */
  predicate SettledAs(r: DataState, s: DataState, products: Result<Page<Product>>, categories: Result<seq<Category>>) {
    && r.products.items == (if products.Ok? then products.value.items else s.products.items)
    && r.products.error == (if products.Ok? then None else Some(products.message))
    && r.categories.items == (if categories.Ok? then categories.value else s.categories.items)
    && r.categories.error == (if categories.Ok? then None else Some(categories.message))
    && SameData(r, s, CustomersSub) && r.customers.error == s.customers.error
    && SameData(r, s, OrdersSub) && r.orders.error == s.orders.error
    && r.customerOrders == s.customerOrders
  }

  /** `fetchAllData` fulfilling after its children settled keeps what they
      wrote, stops all loading and initializes the store. */
  lemma FinalMerge(s: DataState, s5: DataState, products: Result<Page<Product>>, categories: Result<seq<Category>>)
    requires SettledAs(s5, s, products, categories)
    ensures var r := Reduce(s5, AllFulfilled(FetchAllData(products, categories).value));
            && SettledAs(r, s, products, categories)
            && r.isInitialized
            && (forall k: Sub :: AllDataSub(k) ==> !LoadingOf(r, k))
  {
    var data := FetchAllData(products, categories).value;
    assert data.products == Settled(products) && data.categories == Settled(categories);
  }

  /** The state once both children have settled, before `fetchAllData`
      itself fulfils. */
  lemma AfterSettles(s: DataState, products: Result<Page<Product>>, categories: Result<seq<Category>>)
    ensures
      var s3 := Reduce(Reduce(Reduce(s, AllPending), Pending(ProductsSub)), Pending(CategoriesSub));
      SettledAs(Reduce(Reduce(s3, ProductsSettled(products)), CategoriesSettled(categories)), s, products, categories)
  {
    var s1 := Reduce(s, AllPending);
    var s2 := Reduce(s1, Pending(ProductsSub));
    var s3 := Reduce(s2, Pending(CategoriesSub));
    assert Part(s3, CustomersSub) == Part(s1, CustomersSub) && Part(s3, OrdersSub) == Part(s1, OrdersSub);
    assert Part(s3, CustomerOrdersSub) == Part(s, CustomerOrdersSub);
    var s4 := Reduce(s3, ProductsSettled(products));
    var s5 := Reduce(s4, CategoriesSettled(categories));
    assert Part(s5, ProductsSub) == Part(s4, ProductsSub);
    assert Part(s5, CustomersSub) == Part(s3, CustomersSub) && Part(s5, OrdersSub) == Part(s3, OrdersSub);
    assert Part(s5, CustomerOrdersSub) == Part(s3, CustomerOrdersSub);
  }


  /** The state after dispatching `actions` in order. */
  function ReduceAll(s: DataState, actions: seq<Action>): DataState {
    Store.Replay(Reduce, s, actions)
  }

  /** The slice's state, with each sub-slice record reassigned in place. */
  class DataStore {
    var products: Paged<Product>
    var categories: CategoriesSlice
    var customers: Paged<Customer>
    var orders: Paged<Order>
    var customerOrders: CustomerOrdersSlice
    var isInitialized: bool

    function State(): DataState
      reads this
    {
      DataState(products, categories, customers, orders, customerOrders, isInitialized)
    }

    constructor ()
      ensures State() == Initial
    {
      products, categories, customers, orders := EmptyPaged(), InitialCategories, EmptyPaged(), EmptyPaged();
      customerOrders, isInitialized := InitialCustomerOrders, false;
    }

    method Dispatch(a: Action)
      modifies this
      ensures State() == Reduce(old(State()), a)
    {
      if IsFetchAction(a) {
        DispatchFetch(a);
      } else if IsLoadAction(a) {
        DispatchLoad(a);
      } else {
        DispatchClear(a);
      }
    }

    /** The single-fetch cases, in place. */
    method DispatchFetch(a: Action)
      requires IsFetchAction(a)
      modifies this
      ensures State() == ReduceFetch(old(State()), a)
    {
      match a {
        case Pending(k) =>
          SetFlags(k, true, None);
        case Rejected(k, m) =>
          SetFlags(k, false, Some(m));
        case ProductsFulfilled(page) =>
          products := WithPage(products, page).(isLoading := false);
        case CategoriesFulfilled(items) =>
          categories := categories.(isLoading := false, items := items);
        case CustomersFulfilled(page) =>
          customers := WithPage(customers, page).(isLoading := false);
        case OrdersFulfilled(page) =>
          orders := WithPage(orders, page).(isLoading := false);
        case CustomerOrdersFulfilled(p) =>
          customerOrders := customerOrders.(isLoading := false, customer := Some(p.customer), orders := p.orders);
      }
    }

    /** The `fetchAllData` cases, in place. */
    method DispatchLoad(a: Action)
      requires IsLoadAction(a)
      modifies this
      ensures State() == ReduceLoad(old(State()), a)
    {
      match a {
        case AllPending =>
          products := products.(isLoading := true);
          categories := categories.(isLoading := true);
          customers := customers.(isLoading := true);
          orders := orders.(isLoading := true);
        case AllFulfilled(data) =>
          products := products.(isLoading := false);
          categories := categories.(isLoading := false);
          customers := customers.(isLoading := false);
          orders := orders.(isLoading := false);
          if data.products.Some? {
            products := WithPage(products, data.products.value);
          }
          if data.categories.Some? {
            categories := categories.(items := data.categories.value);
          }
          if data.customers.Some? {
            customers := WithPage(customers, data.customers.value);
          }
          if data.orders.Some? {
            orders := WithPage(orders, data.orders.value);
          }
          isInitialized := true;
        case AllRejected(m) =>
          products := products.(isLoading := false, error := Some(m));
          categories := categories.(isLoading := false, error := Some(m));
          customers := customers.(isLoading := false, error := Some(m));
          orders := orders.(isLoading := false, error := Some(m));
      }
    }

    /** The plain reducers, in place. */
    method DispatchClear(a: Action)
      requires a.ClearDataErrors? || a.ClearAllData? || a.ClearCustomerOrders?
      modifies this
      ensures State() == ReduceClear(old(State()), a)
    {
      match a {
        case ClearDataErrors =>
          products := products.(error := None);
          categories := categories.(error := None);
          customers := customers.(error := None);
          orders := orders.(error := None);
          customerOrders := customerOrders.(error := None);
        case ClearAllData =>
          products, categories, customers, orders := EmptyPaged(), InitialCategories, EmptyPaged(), EmptyPaged();
          customerOrders, isInitialized := InitialCustomerOrders, false;
        case ClearCustomerOrders =>
          customerOrders := InitialCustomerOrders;
      }
    }

    /** The pending and rejected cases of one fetch: the sub-slice's flag
        and error. */
    method SetFlags(k: Sub, loading: bool, error: Option<string>)
      modifies this
      ensures State() == WithFlags(old(State()), k, loading, error)
    {
      match k {
        case ProductsSub => products := products.(isLoading := loading, error := error);
        case CategoriesSub => categories := categories.(isLoading := loading, error := error);
        case CustomersSub => customers := customers.(isLoading := loading, error := error);
        case OrdersSub => orders := orders.(isLoading := loading, error := error);
        case CustomerOrdersSub => customerOrders := customerOrders.(isLoading := loading, error := error);
      }
    }
  }
}
