/** The customer picker (src/components/CustomerModal.js): a search over the
    listed customers, the view-orders button and the select callback. */
module CustomerModal {
  import opened Wrappers
  import opened Text
  import opened Seqs
  import opened Entities

  /** A customer as the cart panel lists it. */
  datatype ListedCustomer = ListedCustomer(
    id: int,
    name: string,
    email: string,
    phone: string,
    orders: int,
    firstname: string,
    lastname: string,
    addresses: Option<seq<Address>>)

  /** The lower-cased name or e-mail contains the lower-cased search. */
  predicate Matches(c: ListedCustomer, search: string) {
    Contains(ToLower(c.name), ToLower(search)) || Contains(ToLower(c.email), ToLower(search))
  }

  function Keeps(search: string): ListedCustomer -> bool {
    (c: ListedCustomer) => Matches(c, search)
  }

  /** `filtered`: the customers matching the search. */
  function FilterCustomers(customers: seq<ListedCustomer>, search: string): (r: seq<ListedCustomer>)
    ensures |r| <= |customers|
    ensures forall c :: c in r <==> c in customers && Matches(c, search)
  {
    Filter(customers, Keeps(search))
  }

  /** The filtered list keeps the customers' order. */
  lemma FilteredIsSubsequence(customers: seq<ListedCustomer>, search: string)
    ensures Subsequence(FilterCustomers(customers, search), customers)
  {
    FilterIsSubsequence(customers, Keeps(search));
  }

  /** An empty search lists every customer, in order. */
  lemma EmptySearchKeepsAll(customers: seq<ListedCustomer>)
    ensures FilterCustomers(customers, "") == customers
  {
    assert ToLower("") == "";
    forall k | 0 <= k < |customers| ensures Keeps("")(customers[k]) {
      ContainsEmpty(ToLower(customers[k].name));
    }
    FilterKeepsAll(customers, Keeps(""));
  }

  /** Searching for a customer's own e-mail finds that customer. */
  lemma FindsByOwnEmail(customers: seq<ListedCustomer>, c: ListedCustomer)
    requires c in customers
    ensures c in FilterCustomers(customers, c.email)
  {
    ContainsSelf(ToLower(c.email));
  }

  /** What the modal renders: nothing when closed, else the filtered list. */
  function Listed(open: bool, customers: seq<ListedCustomer>, search: string): (r: Option<seq<ListedCustomer>>)
    ensures r.None? <==> !open
    ensures r.Some? ==> forall c :: c in r.value <==> c in customers && Matches(c, search)
  {
    if !open then None else Some(FilterCustomers(customers, search))
  }

  /** The view-orders button is shown iff a handler is given and the
      customer has orders. */
  predicate ViewOrdersShown(hasViewOrders: bool, c: ListedCustomer) {
    hasViewOrders && c.orders > 0
  }

  datatype Callback = Selected(customer: ListedCustomer) | Closed

  /** Choosing a customer reports it and then closes the modal. */
  function Select(c: ListedCustomer): (calls: seq<Callback>)
    ensures |calls| == 2 && calls[0].Selected? && calls[0].customer == c && calls[1] == Closed
  {
    [Selected(c), Closed]
  }
}
