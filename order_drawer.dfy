/** The order drawer: the price shown per order line and the total of the list. */
module OrderDrawer {
  import opened Common
  import opened Types
  import Utils

  /**
   * `getPrice`: the store's total when the line carries one, else the client
   * estimate from the line's base price, quantity, category, size and crust.
   */
  function GetPrice(order: OrderItem): (r: real)
    ensures order.precoTotalBackend.Some? ==> r == order.precoTotalBackend.value
    ensures order.precoTotalBackend.None? ==>
      var d := order.draft;
      r == Utils.CalculateItemPrice(d.preco, d.quantidade, CategoryName(d.categoria), d.tamanho, d.tipoMassa)
  {
    if order.precoTotalBackend.Some? then order.precoTotalBackend.value
    else
      var d := order.draft;
      Utils.CalculateItemPrice(d.preco, d.quantidade, CategoryName(d.categoria), d.tamanho, d.tipoMassa)
  }

  /** `totalRevenue`: `orders.reduce((acc, o) => acc + getPrice(o), 0)`, folded from the left. */
  function TotalRevenue(orders: seq<OrderItem>): real
  {
    if orders == [] then 0.0
    else TotalRevenue(orders[..|orders| - 1]) + GetPrice(orders[|orders| - 1])
  }

  /** The total of two lists laid end to end is the sum of their totals. */
  lemma {:induction false} TotalRevenueAppend(a: seq<OrderItem>, b: seq<OrderItem>)
    ensures TotalRevenue(a + b) == TotalRevenue(a) + TotalRevenue(b)
  {
    if b == [] {
      assert a + b == a;
    } else {
      var n := |b|;
      TotalRevenueAppend(a, b[..n - 1]);
      assert (a + b)[..|a + b| - 1] == a + b[..n - 1];
    }
  }

  /** Adding an order at either end raises the total by exactly that order's price; no orders total 0. */
  lemma TotalRevenueAdd(orders: seq<OrderItem>, o: OrderItem)
    ensures TotalRevenue([]) == 0.0
    ensures TotalRevenue(orders + [o]) == TotalRevenue(orders) + GetPrice(o)
    ensures TotalRevenue([o] + orders) == GetPrice(o) + TotalRevenue(orders)
  {
    TotalRevenueAppend(orders, [o]);
    TotalRevenueAppend([o], orders);
    assert TotalRevenue([o]) == TotalRevenue([]) + GetPrice(o) by {
      assert [o][..0] == [];
    }
  }

  /** Removing the lines that fail a filter lowers the total by exactly their prices. */
  lemma {:induction false} TotalRevenueSplit(orders: seq<OrderItem>, p: OrderItem -> bool)
    ensures TotalRevenue(orders)
      == TotalRevenue(Filter(orders, p)) + TotalRevenue(Filter(orders, (o: OrderItem) => !p(o)))
  {
    if orders != [] {
      var q := (o: OrderItem) => !p(o);
      TotalRevenueSplit(orders[1..], p);
      assert orders == [orders[0]] + orders[1..];
      TotalRevenueAppend([orders[0]], orders[1..]);
      TotalRevenueAdd([], orders[0]);
      assert [] + [orders[0]] == [orders[0]];
      if p(orders[0]) {
        TotalRevenueAppend([orders[0]], Filter(orders[1..], p));
      } else {
        TotalRevenueAppend([orders[0]], Filter(orders[1..], q));
      }
    }
  }

  /** Every line priced at zero or more gives a total of zero or more. */
  lemma {:induction false} TotalRevenueNonNegative(orders: seq<OrderItem>)
    requires forall i :: 0 <= i < |orders| ==> GetPrice(orders[i]) >= 0.0
    ensures TotalRevenue(orders) >= 0.0
  {
    if orders != [] {
      TotalRevenueNonNegative(orders[..|orders| - 1]);
    }
  }

  /**
   * A line with a store total shows that total whatever its quantity, so a
   * visual quantity change in the list leaves its price and the drawer total
   * as they were.
   */
  lemma BackendPriceIgnoresQuantity(order: OrderItem, q: int)
    requires order.precoTotalBackend.Some?
    ensures GetPrice(order.(draft := order.draft.(quantidade := q))) == GetPrice(order)
  {
  }
}
