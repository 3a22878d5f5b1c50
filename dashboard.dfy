/** The admin order table (app/components/AdminDashboard.tsx): the hash
    search, the status filter that is never changed from "all", and the
    cancel-order action with its `deletingOrder` flag. */
module Dashboard {
  import opened Optional
  import opened Effects
  import opened Orders
  import Seqs
  import Text

  /** The search matches when the lower-cased query occurs in the
      lower-cased fingerprint, pickup-shipping hash or production-shipping
      hash. */
  predicate MatchesSearch(o: Order, query: string)
    ensures query == "" ==> MatchesSearch(o, query)
  {
    Text.ContainsEmpty(Text.Lower(o.qrHash));
    || Text.Contains(Text.Lower(o.qrHash), Text.Lower(query))
    || Text.Contains(Text.Lower(o.csShipping.csShippingHash), Text.Lower(query))
    || Text.Contains(Text.Lower(o.cfShipping.cfShippingHash), Text.Lower(query))
  }

  /** `filteredOrders`: the search must match and the status filter must
      be "all". */
  function FilteredOrders(orders: seq<Order>, query: string, statusFilter: string): (r: seq<Order>)
    ensures forall o :: o in r <==> o in orders && MatchesSearch(o, query) && statusFilter == "all"
    ensures Seqs.IsSubsequence(r, orders)
  {
    Seqs.FilterIsSubsequence(orders, o => MatchesSearch(o, query) && statusFilter == "all");
    Seqs.Filter(orders, o => MatchesSearch(o, query) && statusFilter == "all")
  }

  /** With the filter at "all" an empty query shows every order; "Showing
      X of Y" never has X above Y. */
  lemma EmptyQueryKeepsAll(orders: seq<Order>, query: string, statusFilter: string)
    ensures FilteredOrders(orders, "", "all") == orders
    ensures |FilteredOrders(orders, query, statusFilter)| <= |orders|
  {
    forall o | o in orders ensures MatchesSearch(o, "") && "all" == "all" {
      Text.ContainsEmpty(Text.Lower(o.qrHash));
    }
    Seqs.FilterKeepsAll(orders, o => MatchesSearch(o, "") && "all" == "all");
    Seqs.SubsequenceLength(FilteredOrders(orders, query, statusFilter), orders);
  }

  /** `orders.findIndex(order => order.id === id)`: the first position
      holding the id, or -1 when none does. */
  function FindIndex(orders: seq<Order>, id: nat): (r: int)
    ensures -1 <= r < |orders|
    ensures r >= 0 ==> orders[r].id == id && forall j :: 0 <= j < r ==> orders[j].id != id
    ensures r == -1 <==> forall j :: 0 <= j < |orders| ==> orders[j].id != id
  {
    if orders == [] then -1
    else if orders[0].id == id then 0
    else
      var rest := FindIndex(orders[1..], id);
      if rest == -1 then -1 else rest + 1
  }

  const RemoveOrdersAbi: string := "function removeOrders(uint256 index)"

  /** What one run of `handleCancelOrder` does outside the component, given
      the wallet, the index found and whether preparing the call threw. */
  function CancelEffects(hasAccount: bool, index: int, threw: bool): (r: seq<Event>)
    ensures r == [] <==> hasAccount && threw
    ensures r != [] ==> r[|r| - 1].Alert? || r[|r| - 1] == Refresh
  {
    if !hasAccount then [Alert("Please connect your wallet")]
    else if threw then []
    else [SendTransaction(RemoveOrdersAbi, [Int(index)]), Refresh]
  }

  /** No wallet, no write; otherwise the single write removes the order's
      position in the full (unfiltered) list. */
  lemma CancelWrites(orders: seq<Order>, id: nat, hasAccount: bool, threw: bool)
    ensures !hasAccount || threw ==> Writes(CancelEffects(hasAccount, FindIndex(orders, id), threw)) == []
    ensures hasAccount && !threw ==>
      Writes(CancelEffects(hasAccount, FindIndex(orders, id), threw))
      == [SendTransaction(RemoveOrdersAbi, [Int(FindIndex(orders, id))])]
    ensures hasAccount && !threw && id in (set o | o in orders :: o.id) ==>
      orders[FindIndex(orders, id)].id == id
  {
    var e := CancelEffects(hasAccount, FindIndex(orders, id), threw);
    if hasAccount && !threw {
      assert Writes(e) == [e[0]] + Writes(e[1..]);
      assert Writes(e[1..]) == [] + Writes(e[2..]);
    } else if hasAccount {
      assert e == [];
    } else {
      assert Writes(e) == [] + Writes(e[1..]);
    }
    if id in (set o | o in orders :: o.id) {
      var o :| o in orders && o.id == id;
      var k :| 0 <= k < |orders| && orders[k] == o;
      assert orders[k].id == id;
    }
  }

  /** The component's state. `activeAccount` comes from the wallet hook
      and is only read here. */
  class Table {
    var searchQuery: string
    var statusFilter: string
    var deletingOrder: Option<nat>
    var activeAccount: Option<string>
    ghost var trace: seq<Event>

    /** No control sets the status filter. */
    ghost predicate Valid()
      reads this
    {
      statusFilter == "all"
    }

    constructor (account: Option<string>)
      ensures Valid()
      ensures searchQuery == "" && deletingOrder == None && activeAccount == account && trace == []
    {
      searchQuery := "";
      statusFilter := "all";
      deletingOrder := None;
      activeAccount := account;
      trace := [];
    }

    /** The search box's `onChange`. */
    method SetSearchQuery(query: string)
      requires Valid()
      modifies this`searchQuery
      ensures Valid() && searchQuery == query
    {
      searchQuery := query;
    }

    /** The rows on screen, which therefore depend on the query alone. */
    function Visible(orders: seq<Order>): (r: seq<Order>)
      requires Valid()
      reads this
      ensures forall o :: o in r <==> o in orders && MatchesSearch(o, searchQuery)
    {
      FilteredOrders(orders, searchQuery, statusFilter)
    }

    /** The action button of a row is disabled while that row's order is
        the one being deleted. */
    predicate RowDisabled(o: Order)
      reads this
      ensures RowDisabled(o) ==> deletingOrder == Some(o.id)
    {
      deletingOrder == Some(o.id)
    }

    /** `handleCancelOrder(orderId)`: the flag is set first; without a wallet
        the handler returns with the flag still set, so the row stays
        disabled; on the send path and the exception path it is cleared. */
    method HandleCancelOrder(orders: seq<Order>, orderId: nat, threw: bool)
      requires Valid()
      modifies this`deletingOrder, this`trace
      ensures Valid()
      ensures deletingOrder == if activeAccount.None? then Some(orderId) else None
      ensures trace == old(trace) + CancelEffects(activeAccount.Some?, FindIndex(orders, orderId), threw)
    {
      deletingOrder := Some(orderId);
      var orderIndex := FindIndex(orders, orderId);
      if activeAccount.None? {
        trace := trace + [Alert("Please connect your wallet")];
        return;
      }
      if threw {
        deletingOrder := None;
        return;
      }
      trace := trace + [SendTransaction(RemoveOrdersAbi, [Int(orderIndex)])];
      deletingOrder := None;
      trace := trace + [Refresh];
    }
  }
}
