/** The main POS screen (src/components/POSMain.js): the product search and
    category filter, the search box handlers, the post-login start-up and
    the navigation handler. */
module PosMain {
  import opened Wrappers
  import opened Text
  import opened Seqs
  import opened Entities
  import opened Effects
  import Notifications
  import Cart

  /** The `category` state. CategoryList.js stores a category's numeric
      `id` in it, while the filter compares category names with `===`, so
      both shapes of JavaScript value are kept apart here. */
  datatype CategoryValue = Str(text: string) | Num(number: int)

  /** `!category`: the empty string and the number 0 are falsy. */
  predicate NoCategory(category: CategoryValue) {
    category == Str("") || category == Num(0)
  }

  /** An empty search, or the lower-cased search in the lower-cased name or sku. */
  predicate MatchesSearch(p: Product, search: string) {
    search == "" || Contains(ToLower(p.name), ToLower(search)) || Contains(ToLower(p.sku), ToLower(search))
  }

  /** Strict equality with a category's name: a string equal to the name;
      never a number. */
  predicate NamesCategory(c: CategoryRef, category: CategoryValue) {
    category.Str? && c.name == category.text
  }

  /** No category picked, or one of the product's categories names it. */
  predicate MatchesCategory(p: Product, category: CategoryValue) {
    NoCategory(category) || (p.categories.Some? && exists c :: c in p.categories.value && NamesCategory(c, category))
  }

  function Shows(search: string, category: CategoryValue): Product -> bool {
    (p: Product) => MatchesSearch(p, search) && MatchesCategory(p, category)
  }

  /** `filteredProducts`: the products matching both the search and the
      category. */
  function FilterProducts(products: seq<Product>, search: string, category: CategoryValue): (r: seq<Product>)
    ensures |r| <= |products|
    ensures forall p :: p in r <==> p in products && MatchesSearch(p, search) && MatchesCategory(p, category)
  {
    Filter(products, Shows(search, category))
  }

  /** The filtered list keeps the products' order. */
  lemma FilteredIsSubsequence(products: seq<Product>, search: string, category: CategoryValue)
    ensures Subsequence(FilterProducts(products, search, category), products)
  {
    FilterIsSubsequence(products, Shows(search, category));
  }

  /** No search and no category shows every product, in order. */
  lemma NoCriteriaShowsAll(products: seq<Product>)
    ensures FilterProducts(products, "", Str("")) == products
  {
    FilterKeepsAll(products, Shows("", Str("")));
  }

  /** The search ignores ASCII case: typing it lower-cased changes nothing. */
  lemma SearchIgnoresCase(products: seq<Product>, search: string, category: CategoryValue)
    ensures FilterProducts(products, ToLower(search), category) == FilterProducts(products, search, category)
  {
    ToLowerIdempotent(search);
    assert ToLower(search) == "" <==> search == "";
    FilterSameTest(products, Shows(ToLower(search), category), Shows(search, category));
  }

  /** A category picked in the category list is stored as its id; any
      non-zero id then hides every product, whatever the search. */
  lemma CategoryIdShowsNothing(products: seq<Product>, search: string, id: int)
    requires id != 0
    ensures FilterProducts(products, search, Num(id)) == []
  {
    var r := FilterProducts(products, search, Num(id));
    assert forall p :: p !in r;
  }

  /** The screen's search and category state, set through its setters. */
  class ProductBrowser {
    var search: string
    var category: CategoryValue

    constructor ()
      ensures search == "" && category == Str("")
    {
      search, category := "", Str("");
    }

    /** The products the grid shows. */
    function Visible(products: seq<Product>): seq<Product>
      reads this
    {
      FilterProducts(products, search, category)
    }

    /** `handleSearchChange`: a new search always drops the category. */
    method SearchChange(value: string)
      modifies this
      ensures search == value && category == Str("")
    {
      search := value;
      category := Str("");
    }

    /** `handleClearSearch`: back to showing every product. */
    method ClearSearch()
      modifies this
      ensures search == "" && category == Str("")
      ensures forall products :: Visible(products) == products
    {
      search := "";
      category := Str("");
      forall products: seq<Product> ensures Visible(products) == products {
        NoCriteriaShowsAll(products);
      }
    }

    /** The category list's button: `setCategory(cat.id)`. */
    method SelectCategory(id: int)
      modifies this
      ensures category == Num(id) && search == old(search)
    {
      category := Num(id);
    }
  }

  /** The post-login effect: with a token, load the data and create a
      cart; once `createCart` fulfils with a truthy id, fetch that cart.
      `created` is the outcome of the unwrapped `createCart` dispatch. */
  function StartUp(token: Option<string>, created: Result<Option<string>>): (effects: seq<Effect>)
    ensures !Truthy(token) ==> effects == []
    ensures Truthy(token) ==> 2 <= |effects| <= 3 && effects[0] == LoadAllData && effects[1] == CreateCart
    ensures Truthy(token) ==> (|effects| == 3 <==> created.Ok? && Truthy(created.value))
    ensures |effects| == 3 ==> effects[2] == FetchCart(created.value)
  {
    if !Truthy(token) then []
    else if created.Ok? && Truthy(created.value) then [LoadAllData, CreateCart, FetchCart(created.value)]
    else [LoadAllData, CreateCart]
  }

  /** With a token, the cart fetched at start-up is the one the backend
      just created, and it is fetched only when the backend created one. */
  lemma StartUpFetchesCreatedCart(token: Option<string>, reply: Reply<Option<string>>)
    requires Truthy(token)
    ensures var effects := StartUp(token, Cart.CreateCart(token, reply).result);
            (|effects| == 3 <==> reply.Replied? && Truthy(reply.value)) &&
            (|effects| == 3 ==> effects[2] == FetchCart(reply.value))
  {
  }

  /** What `handleNavClick` does besides highlighting the item. */
  datatype NavOutcome = NavOutcome(effects: seq<Effect>, opensOrderHistory: bool)

  const RefreshPageSize: int := 50

  /** `handleNavClick(nav)`: Refresh refetches the first 50 products and
      says so; Orders opens the order history; anything else only moves
      the highlight. */
  function NavClick(nav: string): (r: NavOutcome)
    ensures r.opensOrderHistory <==> nav == "Orders"
    ensures r.effects != [] <==> nav == "Refresh"
    ensures nav == "Refresh" ==>
              r.effects == [FetchProducts(RefreshPageSize, 1), Notify(Notifications.Success, "Products refreshed")]
  {
    if nav == "Refresh" then
      NavOutcome([FetchProducts(RefreshPageSize, 1), Notify(Notifications.Success, "Products refreshed")], false)
    else if nav == "Orders" then NavOutcome([], true)
    else NavOutcome([], false)
  }
}
