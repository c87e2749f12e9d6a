/** The dashboard statistics of src/components/dashboard/admin/AdminPanel.tsx:
    totals and filtered counts over the orders and products the backend
    returned, computed on every fetch. */
module AdminPanel {
  import opened Wrappers
  import opened Backend
  import opened Text
  import opened Types

  /** `orders.reduce((sum, order) => sum + order.totalAmount, 0)`. */
  function TotalRevenue(orders: seq<Order>): real
    decreases |orders|
  {
    if orders == [] then 0.0 else TotalRevenue(orders[..|orders| - 1]) + orders[|orders| - 1].totalAmount
  }

  /** Revenue adds up over any split of the order list. */
  lemma {:induction false} RevenueConcat(a: seq<Order>, b: seq<Order>)
    ensures TotalRevenue(a + b) == TotalRevenue(a) + TotalRevenue(b)
    decreases |b|
  {
    if b == [] {
      assert a + b == a;
    } else {
      var c := a + b;
      assert c[..|c| - 1] == a + b[..|b| - 1];
      RevenueConcat(a, b[..|b| - 1]);
    }
  }

  /** Revenue is never negative when no order amount is. */
  lemma {:induction false} RevenueNonNegative(orders: seq<Order>)
    requires forall k :: 0 <= k < |orders| ==> orders[k].totalAmount >= 0.0
    ensures TotalRevenue(orders) >= 0.0
    decreases |orders|
  {
    if orders != [] {
      RevenueNonNegative(orders[..|orders| - 1]);
    }
  }

  /** An order still waiting to be packed: PLACED or CONFIRMED. */
  predicate IsPending(o: Order) {
    o.status == Placed || o.status == Confirmed
  }

  /** `orders.filter(o => o.status === 'PLACED' || o.status === 'CONFIRMED')`. */
  function PendingOrders(orders: seq<Order>): (r: seq<Order>)
    ensures |r| <= |orders|
    ensures forall o :: o in r <==> o in orders && IsPending(o)
    ensures forall o :: multiset(r)[o] == if IsPending(o) then multiset(orders)[o] else 0
  {
    if orders == [] then []
    else
      assert orders == [orders[0]] + orders[1..];
      (if IsPending(orders[0]) then [orders[0]] else []) + PendingOrders(orders[1..])
  }

  predicate IsLowStock(p: Product) {
    p.stock < 10
  }

  /** `products.filter(p => p.stock < 10)`: every low-stock product as many
      times as it occurs, and nothing else. */
  function LowStockProducts(products: seq<Product>): (r: seq<Product>)
    ensures |r| <= |products|
    ensures forall p :: p in r <==> p in products && IsLowStock(p)
    ensures forall p :: multiset(r)[p] == if IsLowStock(p) then multiset(products)[p] else 0
  {
    if products == [] then []
    else
      assert products == [products[0]] + products[1..];
      (if IsLowStock(products[0]) then [products[0]] else []) + LowStockProducts(products[1..])
  }

  /** The low-stock filter distributes over concatenation, keeping order. */
  lemma {:induction false} LowStockConcat(a: seq<Product>, b: seq<Product>)
    ensures LowStockProducts(a + b) == LowStockProducts(a) + LowStockProducts(b)
    decreases |a|
  {
    if a == [] {
      assert a + b == b;
    } else {
      assert (a + b)[0] == a[0];
      assert (a + b)[1..] == a[1..] + b;
      LowStockConcat(a[1..], b);
    }
  }

  /** The pending count adds up over any split of the order list. */
  lemma {:induction false} PendingConcat(a: seq<Order>, b: seq<Order>)
    ensures PendingOrders(a + b) == PendingOrders(a) + PendingOrders(b)
    decreases |a|
  {
    if a == [] {
      assert a + b == b;
    } else {
      assert (a + b)[0] == a[0];
      assert (a + b)[1..] == a[1..] + b;
      PendingConcat(a[1..], b);
    }
  }

  /** The pending count equals the order count exactly when every order is pending. */
  lemma {:induction false} AllPendingIffCountIsTotal(orders: seq<Order>)
    ensures |PendingOrders(orders)| == |orders| <==> forall k :: 0 <= k < |orders| ==> IsPending(orders[k])
    decreases |orders|
  {
    if orders != [] {
      AllPendingIffCountIsTotal(orders[1..]);
      assert forall k :: 1 <= k < |orders| ==> orders[k] == orders[1..][k - 1];
    }
  }

  const MockUserCount := 1243

  datatype DashboardStats = DashboardStats(
    totalRevenue: real,
    totalOrders: nat,
    totalProducts: nat,
    totalUsers: nat,
    pendingOrders: nat,
    lowStockProducts: nat)

  /** `mockStats`: revenue is the sum of the order amounts, the two counts
      are the lengths of the lists, the pending and low-stock figures are the
      sizes of the filtered lists (so never more than the totals), and the
      user count is the fixed mock figure. */
  function ComputeStats(orders: seq<Order>, products: seq<Product>): (r: DashboardStats)
    ensures r.totalRevenue == TotalRevenue(orders)
    ensures r.totalOrders == |orders| && r.totalProducts == |products|
    ensures r.pendingOrders == |PendingOrders(orders)| <= r.totalOrders
    ensures r.lowStockProducts == |LowStockProducts(products)| <= r.totalProducts
    ensures r.totalUsers == MockUserCount
  {
    DashboardStats(
      TotalRevenue(orders),
      |orders|,
      |products|,
      MockUserCount,
      |PendingOrders(orders)|,
      |LowStockProducts(products)|)
  }

  /** A card's figure, `stats?.<count>.toString() || '0'`: "0" before any
      statistics arrived, the decimal count afterwards. */
  function CountCard(count: Option<nat>): (r: string)
    ensures count.None? ==> r == "0"
    ensures count.Some? ==> AllDigits(r) && ParseNat(r) == count.value
    ensures count.Some? && |r| > 1 ==> r[0] != '0'
  {
    match count
    case None => "0"
    case Some(n) =>
      ParseNatToString(n);
      NatToString(n)
  }

  /** The colour of a card's change label. */
  function ChangeColor(change: string): (r: string)
    ensures r == "text-green-600" <==> |change| > 0 && change[0] == '+'
    ensures r != "text-green-600" ==> r == "text-red-600"
  {
    if |change| > 0 && change[0] == '+' then "text-green-600" else "text-red-600"
  }

  /** The six cards' fixed change labels: only "Pending Orders" is red. */
  const CardChanges := ["+12.5%", "+8.2%", "+5.1%", "+15.3%", "-3.2%", "+2.1%"]

  lemma OnlyPendingCardIsRed()
    ensures forall k :: 0 <= k < |CardChanges| ==> (ChangeColor(CardChanges[k]) == "text-red-600" <==> k == 4)
  {
  }

  /** The panel's state: the statistics shown and the spinner flag. */
  class AdminPanelState {
    var stats: Option<DashboardStats>
    var loading: bool

    constructor ()
      ensures stats.None? && loading
    {
      stats, loading := None, true;
    }

    /** `fetchDashboardStats`: both lists are fetched together; if either
        request fails the error is logged and the old statistics stay. The
        spinner is off afterwards on every path. */
    method FetchDashboardStats(orders: Reply<seq<Order>>, products: Reply<seq<Product>>)
      modifies this
      ensures !loading
      ensures orders.Ok? && products.Ok? ==> stats == Some(ComputeStats(orders.value, products.value))
      ensures !(orders.Ok? && products.Ok?) ==> stats == old(stats)
    {
      loading := true;
      if orders.Ok? && products.Ok? {
        stats := Some(ComputeStats(orders.value, products.value));
      }
      loading := false;
    }
  }
}
