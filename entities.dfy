/** The backend records the client reads, reduced to the fields the
    client-side logic looks at. Prices and totals are opaque integers. */
module Entities {
  import opened Wrappers

  datatype CategoryRef = CategoryRef(id: int, name: string)

  /** A catalog product. `categories` is `None` when the backend omits the
      list, which the product filter then treats as matching no category. */
  datatype Product = Product(
    id: int,
    sku: string,
    name: string,
    stockStatus: string,
    categories: Option<seq<CategoryRef>>)

  datatype Category = Category(id: int, name: string, childrenCount: int)

  datatype Address = Address(telephone: Option<string>)

  /** A customer of the customer list. `ordersTotalCount` is
      the total count of the customer's orders, `None` when the orders or
      the count are absent. */
  datatype Customer = Customer(
    id: int,
    email: string,
    firstname: string,
    lastname: string,
    addresses: Option<seq<Address>>,
    ordersTotalCount: Option<int>)

  datatype OrderItem = OrderItem(id: int, productName: string, productSku: string, quantityOrdered: int)

  /** A past order; `grandTotal` is opaque. */
  datatype Order = Order(
    id: int,
    orderNumber: string,
    status: Option<string>,
    items: Option<seq<OrderItem>>,
    grandTotal: int)

  datatype PageInfo = PageInfo(totalPages: int, currentPage: int, pageSize: int)

  /** One page of a paginated query: `{items, total_count, page_info}`. */
  datatype Page<+T> = Page(items: seq<T>, totalCount: int, pageInfo: Option<PageInfo>)

  /** The logged-in customer's profile (the `customer` query). */
  datatype Profile = Profile(id: int, email: string, firstname: string, lastname: string)

  /** The `customer(id)` record of the customer-orders query. */
  datatype CustomerOrders = CustomerOrders(id: int, email: string, firstname: string, lastname: string, orders: Page<Order>)
}
