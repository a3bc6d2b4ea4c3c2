/**
 * The admin customer list endpoint (src/app/api/admin/customers/route.ts):
 * after the admin gate it loads the auth users, the profiles and the orders,
 * and turns each profile into a customer with contact details and order totals.
 */
module CustomersRoute {
  import opened Wrappers
  import opened Types
  import opened Http
  import opened JsStrings
  import opened JsArrays

  /** The two columns the route selects from `orders`. */
  datatype OrderLine = OrderLine(user_id: Option<string>, total_amount: real)

  datatype Customer = Customer(
    id: string, name: string, email: string, phone: string, joined: string,
    totalOrders: nat, totalSpent: real)

  /** `o.user_id === id`: a guest order (null user id) belongs to no profile. */
  function PlacedBy(id: string): OrderLine -> bool {
    (o: OrderLine) => o.user_id == Some(id)
  }

  function LineAmount(o: OrderLine): real {
    o.total_amount
  }

  function SameUser(id: string): AuthUser -> bool {
    (u: AuthUser) => u.id == id
  }

  /** `user?.email || 'N/A'` for the auth user `users.find(u => u.id === id)`. */
  function EmailOf(users: seq<AuthUser>, id: string): (email: string)
    ensures Find(SameUser(id), users).None? ==> email == "N/A"
    ensures Find(SameUser(id), users).Some? ==>
      email == if Truthy(Find(SameUser(id), users).value.email) then Find(SameUser(id), users).value.email.value else "N/A"
  {
    match Find(SameUser(id), users)
    case None => "N/A"
    case Some(u) => OrDefault(u.email, "N/A")
  }

  /** The customer built from one profile. */
  function CustomerOf(profile: Profile, users: seq<AuthUser>, orders: seq<OrderLine>): (c: Customer)
    ensures c.id == profile.id && c.joined == profile.created_at
    ensures c.name == if Truthy(profile.full_name) then profile.full_name.value else "N/A"
    ensures c.phone == if Truthy(profile.phone) then profile.phone.value else "N/A"
    ensures c.email == EmailOf(users, profile.id)
    ensures c.totalOrders <= |orders|
    ensures c.totalOrders == 0 ==> c.totalSpent == 0.0
  {
    var mine := Filter(PlacedBy(profile.id), orders);
    Customer(
      profile.id,
      OrDefault(profile.full_name, "N/A"),
      EmailOf(users, profile.id),
      OrDefault(profile.phone, "N/A"),
      profile.created_at,
      |mine|,
      SumOf(LineAmount, mine))
  }

  /** `profiles.map(...)`: one customer per profile, in profile order. */
  function Combine(profiles: seq<Profile>, users: seq<AuthUser>, orders: seq<OrderLine>): (cs: seq<Customer>)
    ensures |cs| == |profiles|
    ensures forall i :: 0 <= i < |profiles| ==> cs[i] == CustomerOf(profiles[i], users, orders)
  {
    if profiles == [] then []
    else Combine(profiles[..|profiles| - 1], users, orders) + [CustomerOf(profiles[|profiles| - 1], users, orders)]
  }

  /** The positions in the order list of the orders whose user id is `id`. */
  function OwnOrderIndices(orders: seq<OrderLine>, id: string): set<int> {
    set i | 0 <= i < |orders| && orders[i].user_id == Some(id)
  }

  /** The amounts of the orders whose user id is `id`, added up in list order. */
  function OwnSpend(orders: seq<OrderLine>, id: string): real {
    if orders == [] then 0.0
    else
      var o := orders[|orders| - 1];
      OwnSpend(orders[..|orders| - 1], id) + (if o.user_id == Some(id) then o.total_amount else 0.0)
  }

  /**
   * A customer's order count is the number of positions in the order list
   * that carry its id, and its spend adds up the amounts at those positions.
   */
  lemma {:induction false} CustomerTotals(profile: Profile, users: seq<AuthUser>, orders: seq<OrderLine>)
    ensures CustomerOf(profile, users, orders).totalOrders == |OwnOrderIndices(orders, profile.id)|
    ensures CustomerOf(profile, users, orders).totalSpent == OwnSpend(orders, profile.id)
  {
    var id := profile.id;
    if orders == [] {
      assert OwnOrderIndices(orders, id) == {};
    } else {
      var init, o := orders[..|orders| - 1], orders[|orders| - 1];
      CustomerTotals(profile, users, init);
      assert orders == init + [o];
      FilterAppend(PlacedBy(id), init, o);
      SumOfAppend(LineAmount, Filter(PlacedBy(id), init), o);
      if o.user_id == Some(id) {
        assert OwnOrderIndices(orders, id) == OwnOrderIndices(init, id) + {|init|};
        assert |init| !in OwnOrderIndices(init, id);
      } else {
        assert OwnOrderIndices(orders, id) == OwnOrderIndices(init, id);
        assert Filter(PlacedBy(id), orders) == Filter(PlacedBy(id), init);
        assert OwnSpend(orders, id) == OwnSpend(init, id) + 0.0;
      }
    }
  }

  /** A guest order (no user id), or an order of another user, changes no customer's totals. */
  lemma OthersOrdersCountForNoOne(profile: Profile, users: seq<AuthUser>, orders: seq<OrderLine>, uid: Option<string>, amount: real)
    requires uid != Some(profile.id)
    ensures CustomerOf(profile, users, orders + [OrderLine(uid, amount)]) == CustomerOf(profile, users, orders)
  {
    var other := OrderLine(uid, amount);
    assert !PlacedBy(profile.id)(other);
    FilterAppend(PlacedBy(profile.id), orders, other);
    assert Filter(PlacedBy(profile.id), orders + [other]) == Filter(PlacedBy(profile.id), orders);
  }

  /** One more order by the customer adds one to its count and its amount to its spend. */
  lemma OwnOrderCounts(profile: Profile, users: seq<AuthUser>, orders: seq<OrderLine>, amount: real)
    ensures var before, after := CustomerOf(profile, users, orders), CustomerOf(profile, users, orders + [OrderLine(Some(profile.id), amount)]);
      after.totalOrders == before.totalOrders + 1 && after.totalSpent == before.totalSpent + amount
  {
    var o := OrderLine(Some(profile.id), amount);
    FilterAppend(PlacedBy(profile.id), orders, o);
    SumOfAppend(LineAmount, Filter(PlacedBy(profile.id), orders), o);
  }

  /** The sum of the customers' order counts. */
  function OrdersCounted(cs: seq<Customer>): nat {
    if cs == [] then 0 else OrdersCounted(cs[..|cs| - 1]) + cs[|cs| - 1].totalOrders
  }

  function Ids(profiles: seq<Profile>): (ids: seq<string>)
    ensures |ids| == |profiles|
    ensures forall i :: 0 <= i < |profiles| ==> ids[i] == profiles[i].id
  {
    if profiles == [] then [] else Ids(profiles[..|profiles| - 1]) + [profiles[|profiles| - 1].id]
  }

  /** The number of orders each id in `ids` has, summed over the ids. */
  function CountsOf(ids: seq<string>, orders: seq<OrderLine>): nat {
    if ids == [] then 0 else CountsOf(ids[..|ids| - 1], orders) + CountWhere(PlacedBy(ids[|ids| - 1]), orders)
  }

  /** How many entries of `ids` an order's user id equals. */
  function Owners(ids: seq<string>, uid: Option<string>): nat {
    if ids == [] then 0 else Owners(ids[..|ids| - 1], uid) + (if uid == Some(ids[|ids| - 1]) then 1 else 0)
  }

  lemma {:induction false} OwnersOfAbsent(ids: seq<string>, uid: Option<string>)
    requires forall i :: 0 <= i < |ids| ==> uid != Some(ids[i])
    ensures Owners(ids, uid) == 0
  {
    if ids != [] {
      OwnersOfAbsent(ids[..|ids| - 1], uid);
    }
  }

  /** With distinct ids an order has at most one owner. */
  lemma {:induction false} AtMostOneOwner(ids: seq<string>, uid: Option<string>)
    requires NoDuplicates(ids)
    ensures Owners(ids, uid) <= 1
  {
    if ids != [] {
      var init := ids[..|ids| - 1];
      assert NoDuplicates(init);
      if uid == Some(ids[|ids| - 1]) {
        OwnersOfAbsent(init, uid);
      } else {
        AtMostOneOwner(init, uid);
      }
    }
  }

  /** One more order adds one to the count of each id that owns it. */
  lemma {:induction false} CountsOfAppend(ids: seq<string>, orders: seq<OrderLine>, o: OrderLine)
    ensures CountsOf(ids, orders + [o]) == CountsOf(ids, orders) + Owners(ids, o.user_id)
  {
    if ids != [] {
      CountsOfAppend(ids[..|ids| - 1], orders, o);
      FilterAppend(PlacedBy(ids[|ids| - 1]), orders, o);
    }
  }

  /** With distinct ids, no order is counted twice. */
  lemma {:induction false} CountsOfBounded(ids: seq<string>, orders: seq<OrderLine>)
    requires NoDuplicates(ids)
    ensures CountsOf(ids, orders) <= |orders|
  {
    if orders == [] {
      CountsOfEmpty(ids);
    } else {
      var init, o := orders[..|orders| - 1], orders[|orders| - 1];
      CountsOfBounded(ids, init);
      assert orders == init + [o];
      CountsOfAppend(ids, init, o);
      AtMostOneOwner(ids, o.user_id);
    }
  }

  lemma {:induction false} CountsOfEmpty(ids: seq<string>)
    ensures CountsOf(ids, []) == 0
  {
    if ids != [] {
      CountsOfEmpty(ids[..|ids| - 1]);
    }
  }

  /** The customers' order counts add up to the per-id counts of their profiles. */
  lemma {:induction false} OrdersCountedIsCountsOf(profiles: seq<Profile>, users: seq<AuthUser>, orders: seq<OrderLine>)
    ensures OrdersCounted(Combine(profiles, users, orders)) == CountsOf(Ids(profiles), orders)
  {
    if profiles != [] {
      var init := profiles[..|profiles| - 1];
      OrdersCountedIsCountsOf(init, users, orders);
      var cs := Combine(profiles, users, orders);
      assert cs[..|cs| - 1] == Combine(init, users, orders);
      assert Ids(profiles)[..|profiles| - 1] == Ids(init);
    }
  }

  /**
   * When the profile ids are distinct, the customers' order counts add up to
   * at most the number of orders: no order is credited to two customers, and
   * guest orders are credited to none.
   */
  lemma TotalOrdersBounded(profiles: seq<Profile>, users: seq<AuthUser>, orders: seq<OrderLine>)
    requires NoDuplicates(Ids(profiles))
    ensures OrdersCounted(Combine(profiles, users, orders)) <= |orders|
  {
    OrdersCountedIsCountsOf(profiles, users, orders);
    CountsOfBounded(Ids(profiles), orders);
  }

  /**
   * `GET`: the gate, then the three loads in order (auth users, profiles,
   * orders), the first failure answering 500 with its message.
   */
  function CustomersReply(
    user: Option<AuthUser>, role: Option<string>,
    users: Fetch<seq<AuthUser>>, profiles: Fetch<seq<Profile>>, orders: Fetch<seq<OrderLine>>): (reply: Reply<seq<Customer>>)
    ensures AdminGate(user, role).Deny? ==>
      reply == Err(AdminGate(user, role).status, AdminGate(user, role).error)
    ensures AdminGate(user, role).Admit? && users.Threw? ==> reply == Err(500, users.message)
    ensures AdminGate(user, role).Admit? && users.Loaded? && profiles.Threw? ==> reply == Err(500, profiles.message)
    ensures AdminGate(user, role).Admit? && users.Loaded? && profiles.Loaded? && orders.Threw? ==>
      reply == Err(500, orders.message)
    ensures AdminGate(user, role).Admit? && users.Loaded? && profiles.Loaded? && orders.Loaded? ==>
      && reply.Ok? && |reply.body| == |profiles.value|
      && forall i :: 0 <= i < |profiles.value| ==> reply.body[i] == CustomerOf(profiles.value[i], users.value, orders.value)
  {
    var gate := AdminGate(user, role);
    if gate.Deny? then Err(gate.status, gate.error)
    else if users.Threw? then Err(500, users.message)
    else if profiles.Threw? then Err(500, profiles.message)
    else if orders.Threw? then Err(500, orders.message)
    else Ok(Combine(profiles.value, users.value, orders.value))
  }
}
