/** The product grid (src/components/ProductList.js): the add-to-cart
    handler and the two display rules. */
module ProductList {
  import opened Wrappers
  import opened Entities
  import opened Effects
  import Notifications

  /** `handleAddToCart(product)`: nothing without a cart id or while the
      cart is loading; otherwise one unit of the product's sku, then a
      notification by how it settled. `added` is the outcome of the
      unwrapped `addToCart` dispatch. */
  function AddToCartClick<T>(cartId: Option<string>, cartLoading: bool, product: Product, added: Result<T>): (effects: seq<Effect>)
    ensures !Truthy(cartId) || cartLoading ==> effects == []
    ensures Truthy(cartId) && !cartLoading ==>
              |effects| == 2 && effects[0] == AddToCart(cartId, product.sku, 1) && effects[1].Notify?
    ensures Truthy(cartId) && !cartLoading && added.Ok? ==>
              effects[1] == Notify(Notifications.Success, product.name + " added to cart")
    ensures Truthy(cartId) && !cartLoading && added.Err? ==>
              effects[1] == Notify(Notifications.Error, "Error adding item to cart")
  {
    if !Truthy(cartId) || cartLoading then []
    else if added.Ok? then [AddToCart(cartId, product.sku, 1), Notify(Notifications.Success, product.name + " added to cart")]
    else [AddToCart(cartId, product.sku, 1), Notify(Notifications.Error, "Error adding item to cart")]
  }

  const InStock: string := "IN_STOCK"

  /** The add button is disabled for a product not in stock and while the
      cart is loading. */
  predicate AddDisabled(product: Product, cartLoading: bool) {
    product.stockStatus != InStock || cartLoading
  }

  /** A click on an enabled button adds exactly one unit of the product
      when a cart exists, and does nothing before the cart is created. */
  lemma EnabledButtonAddsOne<T>(cartId: Option<string>, cartLoading: bool, product: Product, added: Result<T>)
    requires !AddDisabled(product, cartLoading)
    ensures var effects := AddToCartClick(cartId, cartLoading, product, added);
            && product.stockStatus == InStock
            && (Truthy(cartId) ==> effects[0] == AddToCart(cartId, product.sku, 1))
            && (!Truthy(cartId) ==> effects == [])
  {
  }

  /** The "No products found" state: no products, nothing loading, no error. */
  predicate ShowsEmptyState(products: seq<Product>, loading: bool, error: Option<string>) {
    |products| == 0 && !loading && !Truthy(error)
  }
}
