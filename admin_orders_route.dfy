/**
 * The admin order endpoint (src/app/api/admin/orders/route.ts). `GET` lists
 * every order with its customer's name, email and phone looked up from the
 * profiles and auth users; `PUT` sets one order's status.
 */
module AdminOrdersRoute {
  import opened Wrappers
  import opened Types
  import opened Http
  import opened JsStrings
  import opened JsArrays

  /** The three columns the route selects from `profiles`. */
  datatype Contact = Contact(id: string, full_name: Option<string>, phone: Option<string>)

  /** An order spread into a new object with three customer fields added. */
  datatype EnrichedOrder = EnrichedOrder(order: Order, customer_name: string, customer_email: string, customer_phone: string)

  /** `orders.map(o => o.user_id).filter(Boolean)`: the truthy user ids, in order. */
  function TruthyUserIds(orders: seq<Order>): (ids: seq<string>)
    ensures forall x :: x in ids <==> exists i :: 0 <= i < |orders| && orders[i].user_id == Some(x) && x != ""
  {
    if orders == [] then []
    else
      var init, o := orders[..|orders| - 1], orders[|orders| - 1];
      var prev := TruthyUserIds(init);
      assert forall i :: 0 <= i < |init| ==> init[i] == orders[i];
      if Truthy(o.user_id) then prev + [o.user_id.value] else prev
  }

  /** `Array.from(new Set(...))` of the truthy user ids: each signed-in customer once. */
  function UserIds(orders: seq<Order>): (ids: seq<string>)
    ensures forall x :: x in ids <==> exists i :: 0 <= i < |orders| && orders[i].user_id == Some(x) && x != ""
  {
    Dedupe(TruthyUserIds(orders))
  }

  /** Orders with no truthy user id list no user ids. */
  lemma {:induction false} NoUserIds(orders: seq<Order>)
    requires forall i :: 0 <= i < |orders| ==> !Truthy(orders[i].user_id)
    ensures UserIds(orders) == []
  {
    if orders != [] {
      NoUserIds(orders[..|orders| - 1]);
    }
  }

  /** No user id is listed twice. */
  lemma UserIdsDistinct(orders: seq<Order>)
    ensures NoDuplicates(UserIds(orders))
  {
    DedupeNoDuplicates(TruthyUserIds(orders));
  }

  function ContactOf(uid: Option<string>): Contact -> bool {
    (p: Contact) => Some(p.id) == uid
  }

  function UserOf(uid: Option<string>): AuthUser -> bool {
    (u: AuthUser) => Some(u.id) == uid
  }

  /** The order with the customer fields filled in from the first matching profile and auth user. */
  function Enrich(order: Order, profiles: seq<Contact>, users: seq<AuthUser>): (e: EnrichedOrder)
    ensures e.order == order
    ensures var p := Find(ContactOf(order.user_id), profiles);
      && e.customer_name == (if p.Some? && Truthy(p.value.full_name) then p.value.full_name.value else "Guest User")
      && e.customer_phone == (if p.Some? && Truthy(p.value.phone) then p.value.phone.value else "N/A")
    ensures var u := Find(UserOf(order.user_id), users);
      e.customer_email == if u.Some? && Truthy(u.value.email) then u.value.email.value else "N/A"
  {
    var profile := Find(ContactOf(order.user_id), profiles);
    var user := Find(UserOf(order.user_id), users);
    EnrichedOrder(
      order,
      if profile.Some? then OrDefault(profile.value.full_name, "Guest User") else "Guest User",
      if user.Some? then OrDefault(user.value.email, "N/A") else "N/A",
      if profile.Some? then OrDefault(profile.value.phone, "N/A") else "N/A")
  }

  /** `orders.map(...)`: same length and order, every order kept whole. */
  function EnrichAll(orders: seq<Order>, profiles: seq<Contact>, users: seq<AuthUser>): (es: seq<EnrichedOrder>)
    ensures |es| == |orders|
    ensures forall i :: 0 <= i < |orders| ==> es[i] == Enrich(orders[i], profiles, users)
  {
    if orders == [] then []
    else EnrichAll(orders[..|orders| - 1], profiles, users) + [Enrich(orders[|orders| - 1], profiles, users)]
  }

  /**
   * The profiles the route looks at: none unless some order has a user id;
   * then the rows the profile query returned, or none when it returned null.
   */
  function ProfilesUsed(orders: seq<Order>, profilesData: Option<seq<Contact>>): (ps: seq<Contact>)
    ensures UserIds(orders) == [] ==> ps == []
  {
    if |UserIds(orders)| > 0 && profilesData.Some? then profilesData.value else []
  }

  /**
   * `GET`, given the session user and role, the orders query (newest first),
   * what the profile query for the listed ids returned and what the
   * auth-user listing returned (None when its `users` is missing).
   */
  function OrdersReply(
    user: Option<AuthUser>, role: Option<string>, orders: Fetch<seq<Order>>,
    profilesData: Option<seq<Contact>>, users: Option<seq<AuthUser>>): (reply: Reply<seq<EnrichedOrder>>)
    ensures AdminGate(user, role).Deny? ==>
      reply == Err(AdminGate(user, role).status, AdminGate(user, role).error)
    ensures AdminGate(user, role).Admit? && orders.Threw? ==> reply == Err(500, orders.message)
    ensures AdminGate(user, role).Admit? && orders.Loaded? ==>
      && reply.Ok? && |reply.body| == |orders.value|
      && forall i :: 0 <= i < |orders.value| ==>
           reply.body[i] == Enrich(orders.value[i], ProfilesUsed(orders.value, profilesData), users.GetOr([]))
           && reply.body[i].order == orders.value[i]
  {
    var gate := AdminGate(user, role);
    if gate.Deny? then Err(gate.status, gate.error)
    else if orders.Threw? then Err(500, orders.message)
    else Ok(EnrichAll(orders.value, ProfilesUsed(orders.value, profilesData), users.GetOr([])))
  }

  /**
   * When no order carries a user id the profile query is skipped, so every
   * order is listed as "Guest User" with phone "N/A", whatever the profile
   * table holds.
   */
  lemma GuestsWhenNoUserIds(
    user: Option<AuthUser>, role: Option<string>, orders: seq<Order>,
    profilesData: Option<seq<Contact>>, users: Option<seq<AuthUser>>)
    requires AdminGate(user, role).Admit?
    requires forall i :: 0 <= i < |orders| ==> !Truthy(orders[i].user_id)
    ensures var reply := OrdersReply(user, role, Loaded(orders), profilesData, users);
      reply.Ok? && forall i :: 0 <= i < |orders| ==>
        reply.body[i].customer_name == "Guest User" && reply.body[i].customer_phone == "N/A"
  {
    NoUserIds(orders);
  }

  /**
   * The order of a signed-in customer whose profile was loaded carries the
   * profile's name, or "Guest User" when the name is empty.
   */
  lemma NameFromProfile(order: Order, profiles: seq<Contact>, users: seq<AuthUser>, k: nat)
    requires k < |profiles| && Some(profiles[k].id) == order.user_id
    requires forall j :: 0 <= j < k ==> Some(profiles[j].id) != order.user_id
    ensures Enrich(order, profiles, users).customer_name ==
      if Truthy(profiles[k].full_name) then profiles[k].full_name.value else "Guest User"
  {
    FindAt(ContactOf(order.user_id), profiles, k);
  }

  /** `update({ order_status: status }).eq('id', id)` on the orders table. */
  function SetStatus(orders: seq<Order>, id: string, status: string): (r: seq<Order>)
    ensures |r| == |orders|
    ensures forall i :: 0 <= i < |orders| && orders[i].id == id ==> r[i] == orders[i].(order_status := status)
    ensures forall i :: 0 <= i < |orders| && orders[i].id != id ==> r[i] == orders[i]
  {
    if orders == [] then []
    else
      var o := orders[|orders| - 1];
      SetStatus(orders[..|orders| - 1], id, status) + [if o.id == id then o.(order_status := status) else o]
  }

  /** Setting the same status twice is the same as setting it once. */
  lemma SetStatusIdempotent(orders: seq<Order>, id: string, status: string)
    ensures SetStatus(SetStatus(orders, id, status), id, status) == SetStatus(orders, id, status)
  {
    var once := SetStatus(orders, id, status);
    var twice := SetStatus(once, id, status);
    assert forall i :: 0 <= i < |orders| ==> twice[i] == once[i];
  }

  /** Without an order of that id the table is unchanged. */
  lemma SetStatusMissingId(orders: seq<Order>, id: string, status: string)
    requires forall i :: 0 <= i < |orders| ==> orders[i].id != id
    ensures SetStatus(orders, id, status) == orders
  {
    var r := SetStatus(orders, id, status);
    assert forall i :: 0 <= i < |orders| ==> r[i] == orders[i];
  }

  /** The body of a status change: `{ id, status }`. */
  datatype StatusChange = StatusChange(id: string, status: string)

  /**
   * `PUT`, against the orders table as it stands. After the gate the body is
   * read (`body` is its fields, or the message of the error reading it
   * raised), then the update runs and reports `updateError`. It answers with
   * the reply and the table afterwards: unchanged unless the gate admits the
   * request, the body is read and the update succeeds.
   */
  function PutStatus(
    user: Option<AuthUser>, role: Option<string>, body: Fetch<StatusChange>,
    table: seq<Order>, updateError: Option<string>): (result: (Reply<bool>, seq<Order>))
    ensures AdminGate(user, role).Deny? ==>
      result == (Err(AdminGate(user, role).status, AdminGate(user, role).error), table)
    ensures AdminGate(user, role).Admit? && body.Threw? ==> result == (Err(500, body.message), table)
    ensures AdminGate(user, role).Admit? && body.Loaded? && updateError.Some? ==> result == (Err(500, updateError.value), table)
    ensures AdminGate(user, role).Admit? && body.Loaded? && updateError.None? ==>
      result == (Ok(true), SetStatus(table, body.value.id, body.value.status))
    ensures result.0.Ok? <==> AdminGate(user, role).Admit? && body.Loaded? && updateError.None?
  {
    var gate := AdminGate(user, role);
    if gate.Deny? then (Err(gate.status, gate.error), table)
    else if body.Threw? then (Err(500, body.message), table)
    else if updateError.Some? then (Err(500, updateError.value), table)
    else (Ok(true), SetStatus(table, body.value.id, body.value.status))
  }
}
