/**
 * The admin dashboard endpoint (src/app/api/admin/dashboard/route.ts): after
 * the admin gate it reads every order, the profile and product counts and
 * the products' metal types, and answers with revenue and order statistics,
 * revenue per month, product counts per category and the five newest orders.
 */
module DashboardRoute {
  import opened Wrappers
  import opened Types
  import opened Http
  import opened JsStrings
  import opened JsArrays
  import opened JsRecords

  /** `date.getMonth()`: a month index from 0 (January) to 11. */
  type MonthIndex = i: int | 0 <= i < 12

  const Months: seq<string> := ["Jan", "Feb", "Mar", "Apr", "May", "Jun", "Jul", "Aug", "Sep", "Oct", "Nov", "Dec"]

  function MonthName(m: MonthIndex): string {
    Months[m]
  }

  predicate NotCancelled(o: Order) {
    o.order_status != "cancelled"
  }

  function Amount(o: Order): real {
    o.total_amount
  }

  /** `['pending', 'processing', 'shipped'].includes(o.order_status)` */
  predicate IsActive(o: Order) {
    o.order_status in ["pending", "processing", "shipped"]
  }

  /** The sum of `total_amount` over the orders that are not cancelled. */
  function TotalRevenue(orders: seq<Order>): real {
    SumOf(Amount, Filter(NotCancelled, orders))
  }

  /** The number of pending, processing and shipped orders. */
  function ActiveOrders(orders: seq<Order>): (n: nat)
    ensures n <= |orders|
  {
    CountWhere(IsActive, orders)
  }

  /** Delivered and cancelled orders never add to the active count. */
  lemma {:induction false} ActiveOrdersIgnoreClosed(orders: seq<Order>, closed: seq<Order>)
    requires forall i :: 0 <= i < |closed| ==>
      closed[i].order_status == "delivered" || closed[i].order_status == "cancelled"
    ensures ActiveOrders(orders + closed) == ActiveOrders(orders)
  {
    if closed != [] {
      var init := closed[..|closed| - 1];
      var last := closed[|closed| - 1];
      ActiveOrdersIgnoreClosed(orders, init);
      assert !IsActive(last);
      assert orders + closed == (orders + init) + [last];
      FilterAppend(IsActive, orders + init, last);
      assert Filter(IsActive, orders + closed) == Filter(IsActive, orders + init);
    } else {
      assert orders + closed == orders;
    }
  }

  /** The per-month revenue left by the `forEach` over `orders`, in first-seen order. */
  function MonthlyRevenueOf(orders: seq<Order>, monthOf: string -> MonthIndex): Record {
    if orders == [] then []
    else
      var prev := MonthlyRevenueOf(orders[..|orders| - 1], monthOf);
      var o := orders[|orders| - 1];
      if NotCancelled(o) then AddTo(prev, MonthName(monthOf(o.created_at)), o.total_amount) else prev
  }

  /** The revenue of all months together is the total revenue. */
  lemma {:induction false} MonthlyRevenueSumsToTotal(orders: seq<Order>, monthOf: string -> MonthIndex)
    ensures Total(MonthlyRevenueOf(orders, monthOf)) == TotalRevenue(orders)
  {
    if orders != [] {
      var init, o := orders[..|orders| - 1], orders[|orders| - 1];
      MonthlyRevenueSumsToTotal(init, monthOf);
      assert Filter(NotCancelled, orders) == Filter(NotCancelled, init) + (if NotCancelled(o) then [o] else []);
      if NotCancelled(o) {
        AddToTotal(MonthlyRevenueOf(init, monthOf), MonthName(monthOf(o.created_at)), o.total_amount);
        SumOfAppend(Amount, Filter(NotCancelled, init), o);
      } else {
        assert Filter(NotCancelled, orders) == Filter(NotCancelled, init);
      }
    }
  }

  /** Each month appears once among the keys. */
  lemma {:induction false} MonthlyKeysUnique(orders: seq<Order>, monthOf: string -> MonthIndex)
    ensures KeysUnique(MonthlyRevenueOf(orders, monthOf))
  {
    if orders != [] {
      var init, o := orders[..|orders| - 1], orders[|orders| - 1];
      MonthlyKeysUnique(init, monthOf);
      if NotCancelled(o) {
        AddToKeysUnique(MonthlyRevenueOf(init, monthOf), MonthName(monthOf(o.created_at)), o.total_amount);
      }
    }
  }

  /** Cancelled orders contribute to no month: dropping them changes nothing. */
  lemma {:induction false} MonthlyIgnoresCancelled(orders: seq<Order>, monthOf: string -> MonthIndex)
    ensures MonthlyRevenueOf(orders, monthOf) == MonthlyRevenueOf(Filter(NotCancelled, orders), monthOf)
  {
    if orders != [] {
      var init, o := orders[..|orders| - 1], orders[|orders| - 1];
      MonthlyIgnoresCancelled(init, monthOf);
      var kept := Filter(NotCancelled, orders);
      assert kept == Filter(NotCancelled, init) + (if NotCancelled(o) then [o] else []);
      if NotCancelled(o) {
        assert kept[..|kept| - 1] == Filter(NotCancelled, init);
        assert kept[|kept| - 1] == o;
      } else {
        assert kept == Filter(NotCancelled, init);
      }
    }
  }

  /** The test "not cancelled and dated in the month called `name`". */
  function InMonth(monthOf: string -> MonthIndex, name: string): Order -> bool {
    (o: Order) => NotCancelled(o) && MonthName(monthOf(o.created_at)) == name
  }

  /** The revenue read under a month name is the sum over that month's non-cancelled orders. */
  lemma {:induction false} MonthRevenue(orders: seq<Order>, monthOf: string -> MonthIndex, name: string)
    ensures Get(MonthlyRevenueOf(orders, monthOf), name) == SumOf(Amount, Filter(InMonth(monthOf, name), orders))
  {
    if orders != [] {
      var init, o := orders[..|orders| - 1], orders[|orders| - 1];
      var inMonth := InMonth(monthOf, name);
      MonthRevenue(init, monthOf, name);
      assert Filter(inMonth, orders) == Filter(inMonth, init) + (if inMonth(o) then [o] else []);
      if NotCancelled(o) {
        AddToGet(MonthlyRevenueOf(init, monthOf), MonthName(monthOf(o.created_at)), o.total_amount, name);
      }
      if inMonth(o) {
        SumOfAppend(Amount, Filter(inMonth, init), o);
      } else {
        assert Filter(inMonth, orders) == Filter(inMonth, init);
      }
    }
  }

  /** The `forEach` that fills `monthlyRevenue`; its keys and values are the route's `salesData`. */
  method MonthlyRevenue(orders: seq<Order>, monthOf: string -> MonthIndex) returns (monthly: Record)
    ensures monthly == MonthlyRevenueOf(orders, monthOf)
    ensures Total(monthly) == TotalRevenue(orders)
    ensures KeysUnique(monthly)
  {
    monthly := [];
    for i := 0 to |orders|
      invariant monthly == MonthlyRevenueOf(orders[..i], monthOf)
    {
      var order := orders[i];
      if order.order_status != "cancelled" {
        monthly := AddTo(monthly, MonthName(monthOf(order.created_at)), order.total_amount);
      }
      assert orders[..i + 1][..i] == orders[..i];
    }
    assert orders[..|orders|] == orders;
    MonthlyRevenueSumsToTotal(orders, monthOf);
    MonthlyKeysUnique(orders, monthOf);
  }

  /**
   * The category of a product with metal type `metal`: the type, or "Other"
   * when it is missing or empty, with its first character upper-cased.
   */
  function CategoryKey(metal: Option<string>): (key: string)
    ensures !Truthy(metal) ==> key == "Other"
    ensures Truthy(metal) ==>
      |key| == |metal.value| && key[0] == UpperChar(metal.value[0]) && key[1..] == metal.value[1..]
  {
    Capitalize(OrDefault(metal, "Other"))
  }

  /** "gold" and "Gold" share the bucket "Gold"; a missing type goes to "Other". */
  lemma CategoryKeyExamples()
    ensures CategoryKey(Some("gold")) == CategoryKey(Some("Gold")) == "Gold"
    ensures CategoryKey(None) == CategoryKey(Some("")) == "Other"
  {
    assert Capitalize("gold") == "Gold";
  }

  /** The per-category product counts left by the `forEach` over the products' metal types. */
  function CategoryCountsOf(metals: seq<Option<string>>): Record {
    if metals == [] then []
    else AddTo(CategoryCountsOf(metals[..|metals| - 1]), CategoryKey(metals[|metals| - 1]), 1.0)
  }

  /** Each product adds 1 to exactly one category, so the counts sum to the number of products. */
  lemma {:induction false} CategoryCountsSumToProducts(metals: seq<Option<string>>)
    ensures Total(CategoryCountsOf(metals)) == |metals| as real
  {
    if metals != [] {
      var init := metals[..|metals| - 1];
      CategoryCountsSumToProducts(init);
      AddToTotal(CategoryCountsOf(init), CategoryKey(metals[|metals| - 1]), 1.0);
    }
  }

  function HasCategory(key: string): Option<string> -> bool {
    (m: Option<string>) => CategoryKey(m) == key
  }

  /** The count read under a category is the number of products whose key it is. */
  lemma {:induction false} CategoryCount(metals: seq<Option<string>>, key: string)
    ensures Get(CategoryCountsOf(metals), key) == CountWhere(HasCategory(key), metals) as real
  {
    if metals != [] {
      var init := metals[..|metals| - 1];
      CategoryCount(init, key);
      AddToGet(CategoryCountsOf(init), CategoryKey(metals[|metals| - 1]), 1.0, key);
    }
  }

  /** The `forEach` that fills `categoryMap`; a null product list leaves it empty. */
  method CategoryCounts(metals: Option<seq<Option<string>>>) returns (counts: Record)
    ensures metals.None? ==> counts == []
    ensures metals.Some? ==> counts == CategoryCountsOf(metals.value)
    ensures metals.Some? ==> Total(counts) == |metals.value| as real
  {
    counts := [];
    if metals.Some? {
      var rows := metals.value;
      for i := 0 to |rows|
        invariant counts == CategoryCountsOf(rows[..i])
      {
        var key := Capitalize(OrDefault(rows[i], "Other"));
        counts := AddTo(counts, key, 1.0);
        assert rows[..i + 1][..i] == rows[..i];
      }
      assert rows[..|rows|] == rows;
      CategoryCountsSumToProducts(rows);
    }
  }

  /** `orders.slice(0, 5)` */
  function RecentOrders(orders: seq<Order>): (recent: seq<Order>)
    ensures |recent| == if |orders| < 5 then |orders| else 5
    ensures recent <= orders
  {
    if |orders| < 5 then orders else orders[..5]
  }

  /** `count || 0` for a count the query may leave null. */
  function CountOrZero(count: Option<int>): (n: int)
    ensures count.None? ==> n == 0
    ensures count.Some? ==> n == count.value
  {
    if count.Some? then count.value else 0
  }

  datatype Stats = Stats(totalRevenue: real, activeOrders: nat, totalProducts: int, registeredUsers: int)

  datatype Dashboard = Dashboard(stats: Stats, salesData: Record, categoryData: Record, recentOrders: seq<Order>)

  /**
   * The reply of `GET`, given the session user, the role on their profile,
   * the orders query (newest first), the two counts, the products' metal
   * types and the date-to-month reading.
   */
  function DashboardReply(
    user: Option<AuthUser>, role: Option<string>, orders: Fetch<seq<Order>>,
    usersCount: Option<int>, productsCount: Option<int>, metals: Option<seq<Option<string>>>,
    monthOf: string -> MonthIndex): (reply: Reply<Dashboard>)
    ensures AdminGate(user, role).Deny? ==>
      reply == Err(AdminGate(user, role).status, AdminGate(user, role).error)
    ensures AdminGate(user, role).Admit? && orders.Threw? ==> reply == Err(500, orders.message)
    ensures AdminGate(user, role).Admit? && orders.Loaded? ==>
      && reply.Ok?
      && reply.body.stats == Stats(TotalRevenue(orders.value), ActiveOrders(orders.value),
                                   CountOrZero(productsCount), CountOrZero(usersCount))
      && reply.body.salesData == MonthlyRevenueOf(orders.value, monthOf)
      && reply.body.categoryData == CategoryCountsOf(metals.GetOr([]))
      && reply.body.recentOrders == RecentOrders(orders.value)
      && reply.body.stats.totalRevenue == Total(reply.body.salesData)
      && reply.body.stats.activeOrders <= |orders.value|
      && reply.body.recentOrders <= orders.value
      && (metals.Some? ==> Total(reply.body.categoryData) == |metals.value| as real)
      && (metals.None? ==> reply.body.categoryData == [])
  {
    var gate := AdminGate(user, role);
    if gate.Deny? then Err(gate.status, gate.error)
    else if orders.Threw? then Err(500, orders.message)
    else
      var all := orders.value;
      MonthlyRevenueSumsToTotal(all, monthOf);
      CategoryCountsSumToProducts(metals.GetOr([]));
      var categories := CategoryCountsOf(metals.GetOr([]));
      Ok(Dashboard(
        Stats(TotalRevenue(all), ActiveOrders(all), CountOrZero(productsCount), CountOrZero(usersCount)),
        MonthlyRevenueOf(all, monthOf),
        categories,
        RecentOrders(all)))
  }

  /** A refused request gets the same reply whatever the data would have been. */
  lemma DeniedBeforeData(
    user: Option<AuthUser>, role: Option<string>,
    orders1: Fetch<seq<Order>>, usersCount1: Option<int>, productsCount1: Option<int>, metals1: Option<seq<Option<string>>>,
    orders2: Fetch<seq<Order>>, usersCount2: Option<int>, productsCount2: Option<int>, metals2: Option<seq<Option<string>>>,
    monthOf: string -> MonthIndex)
    requires AdminGate(user, role).Deny?
    ensures DashboardReply(user, role, orders1, usersCount1, productsCount1, metals1, monthOf) ==
            DashboardReply(user, role, orders2, usersCount2, productsCount2, metals2, monthOf)
    ensures DashboardReply(user, role, orders1, usersCount1, productsCount1, metals1, monthOf).status in {401, 403}
  {
  }

  /** `GET`: the gate, then the statistics computed with the route's two loops. */
  method GetDashboard(
    user: Option<AuthUser>, role: Option<string>, orders: Fetch<seq<Order>>,
    usersCount: Option<int>, productsCount: Option<int>, metals: Option<seq<Option<string>>>,
    monthOf: string -> MonthIndex) returns (reply: Reply<Dashboard>)
    ensures reply == DashboardReply(user, role, orders, usersCount, productsCount, metals, monthOf)
  {
    var gate := AdminGate(user, role);
    if gate.Deny? {
      return Err(gate.status, gate.error);
    }
    if orders.Threw? {
      return Err(500, orders.message);
    }
    var all := orders.value;
    var totalRevenue := SumOf(Amount, Filter(NotCancelled, all));
    var activeOrders := |Filter(IsActive, all)|;
    var monthly := MonthlyRevenue(all, monthOf);
    var categories := CategoryCounts(metals);
    reply := Ok(Dashboard(
      Stats(totalRevenue, activeOrders, CountOrZero(productsCount), CountOrZero(usersCount)),
      monthly, categories, RecentOrders(all)));
  }
}
