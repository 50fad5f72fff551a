/** What the components ask the store to do: the thunks and actions they
    dispatch, named after the creators in the store slices. */
module Effects {
  import opened Wrappers
  import Notifications

  datatype Effect =
    | LoadAllData
    | CreateCart
    | FetchCart(cartId: Option<string>)
    | FetchProducts(pageSize: int, currentPage: int)
    | AddToCart(cartId: Option<string>, sku: string, quantity: int)
    | RemoveFromCart(cartId: Option<string>, itemId: Option<int>, removedSku: Option<string>)
    | ClearCart(cartId: Option<string>)
    | PlaceOrder(cartId: Option<string>)
    | Login(username: string, password: string)
    | ClearAuthError
    | FetchCustomerOrders(customerId: int, pageSize: int, currentPage: int)
    | ClearCustomerOrders
    | Notify(kind: Notifications.Kind, message: string)
}
