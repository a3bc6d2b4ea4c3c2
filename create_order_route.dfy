/**
 * The checkout endpoint (src/app/api/orders/create/route.ts): it validates
 * the cart and shipping details sent by the client, inserts a cash-on-delivery
 * order with a formatted shipping address, then inserts one order item per
 * cart line.
 */
module CreateOrderRoute {
  import opened Wrappers
  import opened Types
  import opened Http

  /** A field of the request's JSON body: absent, null, or a string. */
  datatype JsField = Undefined | Null | Str(text: string) {
    /** JavaScript truthiness: only a non-empty string is truthy. */
    predicate Truthy() {
      Str? && text != ""
    }

    /** The field interpolated into a template literal. */
    function Render(): (r: string)
      ensures Str? ==> r == text
      ensures Undefined? ==> r == "undefined"
      ensures Null? ==> r == "null"
    {
      match this
      case Undefined => "undefined"
      case Null => "null"
      case Str(t) => t
    }
  }

  datatype ShippingDetails = ShippingDetails(
    name: JsField, phone: JsField, address: JsField, city: JsField, pincode: JsField, email: JsField)

  /** One cart line as the client sends it: the product's id, the quantity and the unit price shown. */
  datatype CartLine = CartLine(productId: string, quantity: int, currentPrice: real)

  /** The request body; a missing or null `items` or `shippingDetails` is None. */
  datatype OrderRequest = OrderRequest(items: Option<seq<CartLine>>, shippingDetails: Option<ShippingDetails>, totalAmount: real)

  /** The row inserted into `orders`. */
  datatype NewOrder = NewOrder(
    user_id: Option<string>, total_amount: real, payment_status: string,
    payment_method: string, order_status: string, shipping_address: string)

  /** A row inserted into `order_items`. */
  datatype OrderItemRow = OrderItemRow(order_id: string, product_id: string, quantity: int, price_at_purchase: real)

  /** The reply and the rows the request left in the two tables. */
  datatype Outcome = Outcome(reply: Reply<string>, order: Option<NewOrder>, items: seq<OrderItemRow>)

  /** The validation in front of any insert: None when the request may proceed. */
  function Validate(request: OrderRequest): (problem: Option<string>)
    ensures (request.items.None? || request.items.value == []) ==> problem == Some("No items in order")
    ensures request.items.Some? && request.items.value != [] ==>
      (problem.None? <==>
        request.shippingDetails.Some? && request.shippingDetails.value.name.Truthy() && request.shippingDetails.value.address.Truthy())
    ensures problem.Some? ==> problem.value in {"No items in order", "Shipping details are required"}
  {
    if request.items.None? || |request.items.value| == 0 then Some("No items in order")
    else
      var d := request.shippingDetails;
      if d.None? || !d.value.name.Truthy() || !d.value.address.Truthy() then Some("Shipping details are required")
      else None
  }

  /** `${name}\n${phone}\n${address}\n${city}, ${pincode}\nEmail: ${email}`: five lines joined by newlines. */
  function ShippingAddress(d: ShippingDetails): string {
    JoinLines([d.name.Render(), d.phone.Render(), d.address.Render(),
               d.city.Render() + ", " + d.pincode.Render(), "Email: " + d.email.Render()])
  }

  /** The pieces joined with a newline between each two. */
  function JoinLines(pieces: seq<string>): string
    requires |pieces| >= 1
    decreases |pieces|
  {
    if |pieces| == 1 then pieces[0] else pieces[0] + "\n" + JoinLines(pieces[1..])
  }

  /** The pieces of s between newline characters, in order. */
  function Lines(s: string): (lines: seq<string>)
    ensures |lines| >= 1
    decreases |s|
  {
    if '\n' !in s then [s]
    else
      var i := NewlineIndex(s);
      [s[..i]] + Lines(s[i + 1..])
  }

  function NewlineIndex(s: string): (i: nat)
    requires '\n' in s
    ensures i < |s| && s[i] == '\n' && '\n' !in s[..i]
  {
    if s[0] == '\n' then 0
    else
      assert '\n' in s[1..];
      var j := NewlineIndex(s[1..]);
      assert s[..j + 1] == [s[0]] + s[1..][..j];
      1 + j
  }

  /** The first newline of `line + "\n" + rest` is the one after `line`. */
  lemma {:induction false} NewlineAfter(line: string, rest: string)
    requires '\n' !in line
    ensures '\n' in line + "\n" + rest
    ensures NewlineIndex(line + "\n" + rest) == |line|
  {
    var s := line + "\n" + rest;
    assert s[|line|] == '\n';
    if line != [] {
      assert s[0] == line[0];
      assert s[1..] == line[1..] + "\n" + rest;
      NewlineAfter(line[1..], rest);
    }
  }

  /** A line without a newline, then a newline, then the rest: the line comes first. */
  lemma LinesCons(line: string, rest: string)
    requires '\n' !in line
    ensures Lines(line + "\n" + rest) == [line] + Lines(rest)
  {
    var s := line + "\n" + rest;
    NewlineAfter(line, rest);
    assert s[..|line|] == line;
    assert s[|line| + 1..] == rest;
  }

  /** Pieces without newlines, joined by newlines, read back as those pieces. */
  lemma {:induction false} LinesOfJoin(pieces: seq<string>)
    requires |pieces| >= 1
    requires forall i :: 0 <= i < |pieces| ==> '\n' !in pieces[i]
    ensures Lines(JoinLines(pieces)) == pieces
    decreases |pieces|
  {
    if |pieces| > 1 {
      LinesOfJoin(pieces[1..]);
      LinesCons(pieces[0], JoinLines(pieces[1..]));
      assert pieces == [pieces[0]] + pieces[1..];
    }
  }

  /** The address as the template spells it out. */
  lemma ShippingAddressText(d: ShippingDetails)
    ensures ShippingAddress(d) == d.name.Render() + "\n" + (d.phone.Render() + "\n" + (d.address.Render() + "\n"
      + ((d.city.Render() + ", " + d.pincode.Render()) + "\n" + ("Email: " + d.email.Render()))))
  {
    var ps := [d.name.Render(), d.phone.Render(), d.address.Render(),
               d.city.Render() + ", " + d.pincode.Render(), "Email: " + d.email.Render()];
    assert JoinLines(ps[1..][1..][1..][1..]) == ps[4];
    assert JoinLines(ps[1..][1..][1..]) == ps[3] + "\n" + ps[4];
    assert JoinLines(ps[1..][1..]) == ps[2] + "\n" + (ps[3] + "\n" + ps[4]);
    assert JoinLines(ps[1..]) == ps[1] + "\n" + (ps[2] + "\n" + (ps[3] + "\n" + ps[4]));
  }

  /**
   * When no field's text holds a newline, the address reads back line by line
   * as the name, the phone, the address, "city, pincode" and "Email: email".
   */
  lemma ShippingAddressLines(d: ShippingDetails)
    requires '\n' !in d.name.Render() && '\n' !in d.phone.Render() && '\n' !in d.address.Render()
    requires '\n' !in d.city.Render() + ", " + d.pincode.Render()
    requires '\n' !in "Email: " + d.email.Render()
    ensures Lines(ShippingAddress(d)) ==
      [d.name.Render(), d.phone.Render(), d.address.Render(), d.city.Render() + ", " + d.pincode.Render(), "Email: " + d.email.Render()]
  {
    LinesOfJoin([d.name.Render(), d.phone.Render(), d.address.Render(),
                 d.city.Render() + ", " + d.pincode.Render(), "Email: " + d.email.Render()]);
  }

  /** The order row for a validated request: cash on delivery, processing, linked to the user if any. */
  function NewOrderOf(user: Option<AuthUser>, request: OrderRequest, d: ShippingDetails): (o: NewOrder)
    ensures o.payment_status == "cod" && o.payment_method == "cod" && o.order_status == OrderStatus.Processing.Spelling()
    ensures user.Some? ==> o.user_id == Some(user.value.id)
    ensures user.None? ==> o.user_id == None
    ensures o.total_amount == request.totalAmount
  {
    NewOrder(if user.Some? then Some(user.value.id) else None, request.totalAmount, "cod", "cod", "processing", ShippingAddress(d))
  }

  /** `items.map(...)`: one item row per cart line, in order, all pointing at the new order. */
  function OrderItems(orderId: string, lines: seq<CartLine>): (rows: seq<OrderItemRow>)
    ensures |rows| == |lines|
    ensures forall i :: 0 <= i < |lines| ==>
      rows[i] == OrderItemRow(orderId, lines[i].productId, lines[i].quantity, lines[i].currentPrice)
  {
    if lines == [] then []
    else
      var l := lines[|lines| - 1];
      OrderItems(orderId, lines[..|lines| - 1]) + [OrderItemRow(orderId, l.productId, l.quantity, l.currentPrice)]
  }

  /**
   * `POST`, given the session user, the body, what the order insert returned
   * (the new order's id, or the error's message) and the item insert's error.
   */
  function CreateOrder(user: Option<AuthUser>, request: OrderRequest, orderInsert: Fetch<string>, itemsError: Option<string>): (out: Outcome)
    ensures Validate(request).Some? ==> out == Outcome(Err(400, Validate(request).value), None, [])
    ensures Validate(request).None? && orderInsert.Threw? ==>
      out == Outcome(Err(500, "Failed to create order: " + orderInsert.message), None, [])
    ensures Validate(request).None? && orderInsert.Loaded? ==>
      && out.order == Some(NewOrderOf(user, request, request.shippingDetails.value))
      && out.order.value.shipping_address == ShippingAddress(request.shippingDetails.value)
    ensures Validate(request).None? && orderInsert.Loaded? && itemsError.Some? ==>
      out.reply == Err(500, "Failed to create order items") && out.items == []
    ensures Validate(request).None? && orderInsert.Loaded? && itemsError.None? ==>
      out.reply == Ok(orderInsert.value) && out.items == OrderItems(orderInsert.value, request.items.value)
  {
    match Validate(request)
    case Some(problem) => Outcome(Err(400, problem), None, [])
    case None =>
      var row := NewOrderOf(user, request, request.shippingDetails.value);
      match orderInsert
      case Threw(message) => Outcome(Err(500, "Failed to create order: " + message), None, [])
      case Loaded(orderId) =>
        if itemsError.Some? then Outcome(Err(500, "Failed to create order items"), Some(row), [])
        else Outcome(Ok(orderId), Some(row), OrderItems(orderId, request.items.value))
  }

  /**
   * The whole handler: `body` is the parsed request, or the message of an
   * error raised before validation (by `cookies()`, `getUser()` or
   * `req.json()`), which the `catch` answers with 500.
   */
  function Post(user: Option<AuthUser>, body: Fetch<OrderRequest>, orderInsert: Fetch<string>, itemsError: Option<string>): (out: Outcome)
    ensures body.Threw? ==> out == Outcome(Err(500, "Internal server error: " + body.message), None, [])
    ensures body.Loaded? ==> out == CreateOrder(user, body.value, orderInsert, itemsError)
    ensures out.order.None? ==> out.items == [] && out.reply.Err?
  {
    match body
    case Threw(message) => Outcome(Err(500, "Internal server error: " + message), None, [])
    case Loaded(request) => CreateOrder(user, request, orderInsert, itemsError)
  }

  /**
   * The item check comes first: a request without items is refused for its
   * items even when its shipping details are missing too.
   */
  lemma ItemsCheckedFirst(user: Option<AuthUser>, totalAmount: real, orderInsert: Fetch<string>, itemsError: Option<string>)
    ensures CreateOrder(user, OrderRequest(Some([]), None, totalAmount), orderInsert, itemsError).reply == Err(400, "No items in order")
    ensures CreateOrder(user, OrderRequest(None, None, totalAmount), orderInsert, itemsError).reply == Err(400, "No items in order")
  {
  }

  /** Phone, city, pincode and email may all be absent: only name and address are required. */
  lemma OnlyNameAndAddressRequired(lines: seq<CartLine>, name: string, address: string, totalAmount: real)
    requires lines != [] && name != "" && address != ""
    ensures Validate(OrderRequest(Some(lines), Some(ShippingDetails(Str(name), Undefined, Str(address), Undefined, Undefined, Undefined)), totalAmount)).None?
  {
  }

  /** The amount charged is the client's `totalAmount`; the cart lines' prices do not enter it. */
  lemma TotalNotRecomputed(user: Option<AuthUser>, lines1: seq<CartLine>, lines2: seq<CartLine>, d: ShippingDetails,
                           totalAmount: real, orderId: string, itemsError: Option<string>)
    requires lines1 != [] && lines2 != [] && d.name.Truthy() && d.address.Truthy()
    ensures CreateOrder(user, OrderRequest(Some(lines1), Some(d), totalAmount), Loaded(orderId), itemsError).order ==
            CreateOrder(user, OrderRequest(Some(lines2), Some(d), totalAmount), Loaded(orderId), itemsError).order
    ensures CreateOrder(user, OrderRequest(Some(lines1), Some(d), totalAmount), Loaded(orderId), itemsError).order.value.total_amount == totalAmount
  {
  }

  /** A failed item insert still leaves the order row in place: there is no rollback. */
  lemma NoRollback(user: Option<AuthUser>, request: OrderRequest, orderId: string, message: string)
    requires Validate(request).None?
    ensures var out := CreateOrder(user, request, Loaded(orderId), Some(message));
      out.reply.Status() == 500 && out.order.Some? && out.items == []
  {
  }
}
