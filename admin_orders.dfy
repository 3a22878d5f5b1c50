/** The mock admin order list (app/admin/page.tsx): the search over
    customer, product and tracking id, the status filter, the unused date
    filter and the status badge label. */
module AdminOrders {
  import Seqs
  import Text

  /** A row of the page's own mock `Order` type. */
  datatype MockOrder = MockOrder(
    id: string, customer: string, product: string, status: string,
    amount: real, date: string, trackingId: string)

  /** The five mock orders the page lists. */
  const MockOrders: seq<MockOrder> := [
    MockOrder("ORD-001", "John Smith", "Premium Wireless Headphones", "processing", 299.99, "2024-01-20", "VCH-ABC123XYZ"),
    MockOrder("ORD-002", "Sarah Johnson", "Smart Watch Pro", "shipped", 449.99, "2024-01-20", "VCH-DEF456ABC"),
    MockOrder("ORD-003", "Mike Chen", "Bluetooth Speaker", "delivered", 129.99, "2024-01-19", "VCH-GHI789DEF"),
    MockOrder("ORD-004", "Emily Davis", "Laptop Stand", "pending", 79.99, "2024-01-20", "VCH-JKL012GHI"),
    MockOrder("ORD-005", "David Wilson", "Wireless Charger", "processing", 59.99, "2024-01-20", "VCH-MNO345JKL")
  ]

  /** The lower-cased query occurs in the lower-cased customer, product or
      tracking id. */
  predicate MatchesSearch(o: MockOrder, query: string)
    ensures query == "" ==> MatchesSearch(o, query)
  {
    Text.ContainsEmpty(Text.Lower(o.customer));
    || Text.Contains(Text.Lower(o.customer), Text.Lower(query))
    || Text.Contains(Text.Lower(o.product), Text.Lower(query))
    || Text.Contains(Text.Lower(o.trackingId), Text.Lower(query))
  }

  /** "all" lets every status through; any other filter value must equal
      the status exactly. */
  predicate MatchesStatus(o: MockOrder, statusFilter: string)
    ensures MatchesStatus(o, statusFilter) && statusFilter != "all" ==> o.status == statusFilter
    ensures statusFilter == o.status ==> MatchesStatus(o, statusFilter)
  {
    statusFilter == "all" || o.status == statusFilter
  }

  /** `filteredOrders`, with the page's date filter as a parameter it
      never reads. */
  function FilteredOrders(orders: seq<MockOrder>, query: string, statusFilter: string,
                          dateFilter: string): (r: seq<MockOrder>)
    ensures forall o :: o in r <==> o in orders && MatchesSearch(o, query) && MatchesStatus(o, statusFilter)
    ensures Seqs.IsSubsequence(r, orders)
  {
    Seqs.FilterIsSubsequence(orders, o => MatchesSearch(o, query) && MatchesStatus(o, statusFilter));
    Seqs.Filter(orders, o => MatchesSearch(o, query) && MatchesStatus(o, statusFilter))
  }

  /** The date filter changes nothing. */
  lemma DateFilterIgnored(orders: seq<MockOrder>, query: string, statusFilter: string, d1: string, d2: string)
    ensures FilteredOrders(orders, query, statusFilter, d1) == FilteredOrders(orders, query, statusFilter, d2)
  {
  }

  /** "Showing X of Y": X never exceeds Y. */
  lemma ShowingAtMostAll(orders: seq<MockOrder>, query: string, statusFilter: string, dateFilter: string)
    ensures |FilteredOrders(orders, query, statusFilter, dateFilter)| <= |orders|
  {
    Seqs.SubsequenceLength(FilteredOrders(orders, query, statusFilter, dateFilter), orders);
  }

  /** An empty query with status "all" lists every order; an empty query
      with a specific status lists exactly the orders with that status, in
      order. */
  lemma EmptyQuery(orders: seq<MockOrder>, statusFilter: string, dateFilter: string)
    ensures FilteredOrders(orders, "", "all", dateFilter) == orders
    ensures FilteredOrders(orders, "", statusFilter, dateFilter)
      == Seqs.Filter(orders, o => MatchesStatus(o, statusFilter))
  {
    forall o | o in orders ensures MatchesSearch(o, "") {
      Text.ContainsEmpty(Text.Lower(o.customer));
    }
    Seqs.FilterKeepsAll(orders, o => MatchesSearch(o, "") && MatchesStatus(o, "all"));
    FilterSameOn(orders, o => MatchesSearch(o, "") && MatchesStatus(o, statusFilter),
                 o => MatchesStatus(o, statusFilter));
  }

  /** Two tests that agree on every element filter alike. */
  lemma {:induction false} FilterSameOn(s: seq<MockOrder>, p: MockOrder -> bool, q: MockOrder -> bool)
    requires forall x :: x in s ==> p(x) == q(x)
    ensures Seqs.Filter(s, p) == Seqs.Filter(s, q)
  {
    if s != [] {
      FilterSameOn(s[1..], p, q);
    }
  }

  /** `status.charAt(0).toUpperCase() + status.slice(1)`. */
  function StatusLabel(status: string): (r: string)
    ensures |r| == |status|
    ensures |status| > 0 ==> r[0] == Text.UpperChar(status[0]) && r[1..] == status[1..]
  {
    Text.Capitalize(status)
  }

  /** The label and the status it shows are equal up to case. */
  lemma LabelMatchesStatus(status: string)
    ensures Text.Lower(StatusLabel(status)) == Text.Lower(status)
  {
    Text.CapitalizeSameUpToCase(status);
  }

  /** The five statuses get the labels shown in the status menu. */
  lemma StatusLabels()
    ensures StatusLabel("pending") == "Pending"
    ensures StatusLabel("processing") == "Processing"
    ensures StatusLabel("shipped") == "Shipped"
    ensures StatusLabel("delivered") == "Delivered"
    ensures StatusLabel("cancelled") == "Cancelled"
  {
    assert "pending"[1..] == "ending";
    assert "processing"[1..] == "rocessing";
    assert "shipped"[1..] == "hipped";
    assert "delivered"[1..] == "elivered";
    assert "cancelled"[1..] == "ancelled";
  }
}
