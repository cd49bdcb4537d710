/**
 * `POST /api/payment/create`: re-price the cart from the database, compare with
 * the client's total, decrement stock and insert an UNPAID order in one
 * transaction, then hand a payload to the payment gateway (Midtrans Snap).
 */
module PaymentCreate {
  import opened Values
  import opened Store
  import opened Inventory

  datatype CustomerDetails = CustomerDetails(name: string, email: string, phone: string,
                                             address: string, city: Option<string>,
                                             postalCode: string)

  /** The request body: `items`, `shipping_cost`, `shipping_courier`, `total_amount`, `customer_details`. */
  datatype PaymentRequest = PaymentRequest(items: seq<CartItem>, shippingCost: int,
                                           shippingCourier: string, clientTotal: int,
                                           customer: CustomerDetails)

  datatype ShippingAddress = ShippingAddress(address: string, city: string, postalCode: string,
                                             countryCode: string)
  datatype PayloadCustomer = PayloadCustomer(firstName: string, email: string, phone: string,
                                             shippingAddress: ShippingAddress)
  datatype ItemDetail = ItemDetail(id: string, price: int, quantity: int, name: string)

  /** The gateway request: `transaction_details`, `customer_details`, `item_details`, `enabled_payments`. */
  datatype Payload = Payload(orderId: string, grossAmount: int, customer: PayloadCustomer,
                             itemDetails: seq<ItemDetail>, enabledPayments: seq<string>)

  /** What the gateway call comes back with: a session, a non-2xx answer, or a thrown `fetch`. */
  datatype GatewayReply =
    | Accepted(token: string, redirectUrl: string)
    | Refused(httpStatus: int, body: string)
    | Unreachable

  datatype PaymentError =
    | Unauthorized
    | UserNotFound
    | InvalidCart(reason: CartError)
    | PriceMismatch
    | CreateFailed
    | GatewayError(details: string)

  datatype PaymentResponse =
    | Created(token: string, redirectUrl: string, orderId: string)
    | Failed(httpStatus: int, error: PaymentError)

  const EnabledPayments: seq<string> :=
    ["credit_card", "bca_va", "bni_va", "bri_va", "permata_va", "gopay", "shopeepay"]

  /** How long an unpaid order stays payable: 15 minutes, in milliseconds. */
  const ExpiryWindow: int := 15 * 60 * 1000

  function Abs(x: int): nat
  {
    if x < 0 then -x else x
  }

  /**
   * `Math.abs(server - client) > 0.01`, with the tolerance kept as one hundredth;
   * on whole-rupiah amounts it is plain inequality.
   */
  predicate TotalsDiffer(serverTotal: int, clientTotal: int)
    ensures TotalsDiffer(serverTotal, clientTotal) <==> serverTotal != clientTotal
  {
    100 * Abs(serverTotal - clientTotal) > 1
  }

  /** `ORDER-${Date.now()}-${suffix}`, the suffix being the random base-36 characters. */
  function OrderRef(now: nat, suffix: string): string
  {
    "ORDER-" + Decimal(now) + "-" + suffix
  }

  /** Two ids generated at the same `now` coincide only when their random suffixes do. */
  lemma OrderRefSuffix(now: nat, suffix: string, other: string)
    ensures OrderRef(now, suffix) == OrderRef(now, other) <==> suffix == other
  {
    var prefix := "ORDER-" + Decimal(now) + "-";
    assert OrderRef(now, suffix) == prefix + suffix && OrderRef(now, other) == prefix + other;
    assert (prefix + suffix)[|prefix|..] == suffix && (prefix + other)[|prefix|..] == other;
  }

  /** The order row the transaction inserts. */
  function PaymentOrder(id: string, userId: string, total: int, address: string, now: nat,
                        lines: seq<Line>): Order
  {
    Order(id, userId, total, address, UNPAID, Some(now + ExpiryWindow),
          None, None, None, ItemsOf(lines), now)
  }

  function ItemDetailsOf(lines: seq<Line>): seq<ItemDetail>
  {
    seq(|lines|, i requires 0 <= i < |lines| =>
      ItemDetail(lines[i].productId, lines[i].price, lines[i].quantity, lines[i].name))
  }

  function ShippingDetail(req: PaymentRequest): ItemDetail
  {
    ItemDetail("SHIPPING", req.shippingCost, 1, "Shipping - " + req.shippingCourier)
  }

  function BuildPayload(orderId: string, total: int, req: PaymentRequest, lines: seq<Line>): Payload
  {
    var c := req.customer;
    Payload(orderId, total,
            PayloadCustomer(c.name, c.email, c.phone,
                            ShippingAddress(c.address, OrElse(c.city, "Jakarta"), c.postalCode, "IDN")),
            ItemDetailsOf(lines) + [ShippingDetail(req)],
            EnabledPayments)
  }

  /** Σ price × quantity over the gateway's item list. */
  function DetailsSum(ds: seq<ItemDetail>): int
    decreases |ds|
  {
    if ds == [] then 0
    else DetailsSum(ds[..|ds| - 1]) + ds[|ds| - 1].price * ds[|ds| - 1].quantity
  }

  /** `response.ok` gives the token and redirect URL; otherwise the gateway's status and body. */
  function ReplyToResponse(reply: GatewayReply, orderId: string): PaymentResponse
  {
    match reply
    case Accepted(token, url) => Created(token, url, orderId)
    case Refused(status, body) => Failed(status, GatewayError(body))
    case Unreachable => Failed(500, CreateFailed)
  }

  /**
   * The route from session check to gateway reply: the response and the
   * database afterwards. `now` is `Date.now()`, `suffix` the random part of the
   * order id, `gateway` the Snap API.
   */
  function CreatePaymentSpec(s: DbState, session: Option<string>, req: PaymentRequest, now: nat,
                             suffix: string, gateway: Payload -> GatewayReply)
    : (PaymentResponse, DbState)
  {
    if !Truthy(session) then (Failed(401, Unauthorized), s)
    else if session.value !in s.users then (Failed(404, UserNotFound), s)
    else
      match Validate(s.products, req.items, true)
      case Err(e) => (Failed(400, InvalidCart(e)), s)
      case Ok(lines) =>
        var total := Subtotal(lines) + req.shippingCost;
        if TotalsDiffer(total, req.clientTotal) then (Failed(400, PriceMismatch), s)
        else
          var id := OrderRef(now, suffix);
          // inserting a duplicate primary key throws and rolls the transaction back
          if OrderIdTaken(s.orders, id) then (Failed(500, CreateFailed), s)
          else
            var committed := Commit(s, lines, PaymentOrder(id, s.users[session.value], total,
                                                           req.customer.address, now, lines));
            (ReplyToResponse(gateway(BuildPayload(id, total, req, lines)), id), committed)
  }

  // ---------------------------------------------------------------------------
  // Properties of the route

  /** Without a signed-in user with an e-mail nothing is read or written. */
  lemma UnauthorizedPayment(s: DbState, session: Option<string>, req: PaymentRequest, now: nat,
                            suffix: string, gateway: Payload -> GatewayReply)
    requires !Truthy(session)
    ensures CreatePaymentSpec(s, session, req, now, suffix, gateway) == (Failed(401, Unauthorized), s)
  {
  }

  /** The first rejected cart item decides the 400 answer, and the store is unchanged. */
  lemma InvalidCartPayment(s: DbState, session: Option<string>, req: PaymentRequest, now: nat,
                           suffix: string, gateway: Payload -> GatewayReply, i: nat)
    requires Truthy(session) && session.value in s.users
    requires i < |req.items| && CheckItem(s.products, req.items[i], true).Err?
    requires forall j :: 0 <= j < i ==> CheckItem(s.products, req.items[j], true).Ok?
    ensures CreatePaymentSpec(s, session, req, now, suffix, gateway)
            == (Failed(400, InvalidCart(CheckItem(s.products, req.items[i], true).error)), s)
  {
    ValidateFirstError(s.products, req.items, true, i);
  }

  /**
   * A client total that differs from Σ database price × quantity plus shipping is
   * refused before the transaction: no stock decremented, no order inserted.
   */
  lemma PriceMismatchPayment(s: DbState, session: Option<string>, req: PaymentRequest, now: nat,
                             suffix: string, gateway: Payload -> GatewayReply)
    requires Truthy(session) && session.value in s.users
    requires Validate(s.products, req.items, true).Ok?
    requires CartValue(s.products, req.items) + req.shippingCost != req.clientTotal
    ensures CreatePaymentSpec(s, session, req, now, suffix, gateway) == (Failed(400, PriceMismatch), s)
  {
    SubtotalIsCartValue(s.products, req.items, true);
  }

  /** Σ quantities of the cart items that draw from counter `k`. */
  function CartQty(products: map<string, Product>, cart: seq<CartItem>, k: StockKey): int
    decreases |cart|
  {
    if cart == [] then 0
    else
      CartQty(products, cart[..|cart| - 1], k)
      + (if ItemKey(products, cart[|cart| - 1]) == k then cart[|cart| - 1].quantity else 0)
  }

  lemma {:induction false} QtyForIsCartQty(products: map<string, Product>, cart: seq<CartItem>,
                                           checkQuantity: bool, k: StockKey)
    requires Validate(products, cart, checkQuantity).Ok?
    ensures QtyFor(products, Validate(products, cart, checkQuantity).value, k) == CartQty(products, cart, k)
    decreases |cart|
  {
    if cart != [] {
      var n := |cart| - 1;
      var lines := Validate(products, cart, checkQuantity).value;
      var front := Validate(products, cart[..n], checkQuantity).value;
      var l := CheckItem(products, cart[n], checkQuantity).value;
      assert lines == front + [l];
      assert lines[..n] == front;
      CheckedLine(products, cart[n], checkQuantity);
      QtyForIsCartQty(products, cart[..n], checkQuantity, k);
    }
  }

  /** The conditions under which the route reaches the transaction and commits it. */
  predicate Commits(s: DbState, session: Option<string>, req: PaymentRequest, now: nat, suffix: string)
  {
    && Truthy(session) && session.value in s.users
    && Validate(s.products, req.items, true).Ok?
    && CartValue(s.products, req.items) + req.shippingCost == req.clientTotal
    && !OrderIdTaken(s.orders, OrderRef(now, suffix))
  }

  /** The committing path: the new state is the transaction's, the answer is the gateway's. */
  lemma PaymentCommitUnfolds(s: DbState, session: Option<string>, req: PaymentRequest, now: nat,
                             suffix: string, gateway: Payload -> GatewayReply)
    requires Commits(s, session, req, now, suffix)
    ensures var lines := Validate(s.products, req.items, true).value;
            var total := CartValue(s.products, req.items) + req.shippingCost;
            var o := PaymentOrder(OrderRef(now, suffix), s.users[session.value], total,
                                  req.customer.address, now, lines);
            CreatePaymentSpec(s, session, req, now, suffix, gateway)
            == (ReplyToResponse(gateway(BuildPayload(o.id, total, req, lines)), o.id), Commit(s, lines, o))
  {
    var lines := Validate(s.products, req.items, true).value;
    SubtotalIsCartValue(s.products, req.items, true);
    var total := Subtotal(lines) + req.shippingCost;
    assert total == req.clientTotal;
    assert !TotalsDiffer(total, req.clientTotal);
    var id := OrderRef(now, suffix);
    var o := PaymentOrder(id, s.users[session.value], total, req.customer.address, now, lines);
    assert Validate(s.products, req.items, true) == Ok(lines);
    assert !OrderIdTaken(s.orders, id);
    assert CreatePaymentSpec(s, session, req, now, suffix, gateway)
           == (ReplyToResponse(gateway(BuildPayload(id, total, req, lines)), id), Commit(s, lines, o));
  }

  /**
   * On the committing path each counter loses exactly the quantities of the cart
   * items that draw from it, nothing but stock changes in the catalogue, and the
   * users are untouched.
   */
  lemma PaymentCommitsStock(s: DbState, session: Option<string>, req: PaymentRequest, now: nat,
                            suffix: string, gateway: Payload -> GatewayReply)
    requires Commits(s, session, req, now, suffix)
    ensures var s' := CreatePaymentSpec(s, session, req, now, suffix, gateway).1;
            && s'.users == s.users
            && SameCatalog(s.products, s'.products)
            && forall k :: StockOf(s'.products, k) == StockOf(s.products, k) - CartQty(s.products, req.items, k)
  {
    PaymentCommitUnfolds(s, session, req, now, suffix, gateway);
    var lines := Validate(s.products, req.items, true).value;
    ApplyLinesSameCatalog(s.products, lines);
    forall k ensures StockOf(ApplyLines(s.products, lines), k)
                     == StockOf(s.products, k) - CartQty(s.products, req.items, k)
    {
      ApplyLinesStock(s.products, lines, k);
      QtyForIsCartQty(s.products, req.items, true, k);
    }
  }

  /** The items of a committed order follow the cart, at database prices. */
  lemma {:induction false} CommittedItems(products: map<string, Product>, cart: seq<CartItem>)
    requires Validate(products, cart, true).Ok?
    ensures var items := ItemsOf(Validate(products, cart, true).value);
            && |items| == |cart|
            && forall i :: 0 <= i < |cart| ==>
                 && cart[i].productId in products
                 && items[i] == OrderItem(cart[i].productId, cart[i].quantity, products[cart[i].productId].price,
                                          OrNull(cart[i].variantId), OrNull(cart[i].variantName))
  {
    var lines := Validate(products, cart, true).value;
    ValidateAccepts(products, cart, true);
    forall i | 0 <= i < |cart|
      ensures cart[i].productId in products
      ensures lines[i] == LineOf(products[cart[i].productId], cart[i])
    {
      CheckedLine(products, cart[i], true);
    }
  }

  /**
   * On the committing path exactly one order is appended: UNPAID, with the
   * generated id, expiring 15 minutes after `now`, whose total is Σ database
   * price × quantity plus shipping and whose items follow the cart at database
   * prices. It stays committed whatever the gateway answers; the answer carries
   * the gateway's token, or its error.
   */
  lemma PaymentCommitsOrder(s: DbState, session: Option<string>, req: PaymentRequest, now: nat,
                            suffix: string, gateway: Payload -> GatewayReply)
    requires Commits(s, session, req, now, suffix)
    ensures var (resp, s') := CreatePaymentSpec(s, session, req, now, suffix, gateway);
            var cart := req.items;
            && |s'.orders| == |s.orders| + 1 && s'.orders[..|s.orders|] == s.orders
            && var o := s'.orders[|s.orders|];
            && o.id == OrderRef(now, suffix) && o.userId == s.users[session.value]
            && o.status == UNPAID && o.expiryTime == Some(now + 15 * 60 * 1000)
            && o.total == CartValue(s.products, cart) + req.shippingCost
            && o.address == req.customer.address
            && |o.items| == |cart|
            && (forall i :: 0 <= i < |cart| ==>
                  && cart[i].productId in s.products
                  && o.items[i] == OrderItem(cart[i].productId, cart[i].quantity,
                                             s.products[cart[i].productId].price,
                                             OrNull(cart[i].variantId), OrNull(cart[i].variantName)))
            && resp == match gateway(BuildPayload(o.id, o.total, req, Validate(s.products, cart, true).value))
                       case Accepted(token, url) => Created(token, url, o.id)
                       case Refused(status, body) => Failed(status, GatewayError(body))
                       case Unreachable => Failed(500, CreateFailed)
  {
    PaymentCommitUnfolds(s, session, req, now, suffix, gateway);
    CommittedItems(s.products, req.items);
    var lines := Validate(s.products, req.items, true).value;
    var total := CartValue(s.products, req.items) + req.shippingCost;
    var o := PaymentOrder(OrderRef(now, suffix), s.users[session.value], total, req.customer.address, now, lines);
    var s' := Commit(s, lines, o);
    var resp := ReplyToResponse(gateway(BuildPayload(o.id, total, req, lines)), o.id);
    assert CreatePaymentSpec(s, session, req, now, suffix, gateway) == (resp, s');
    assert s'.orders == s.orders + [o];
    assert s'.orders[..|s.orders|] == s.orders && s'.orders[|s.orders|] == o;
    assert o.items == ItemsOf(lines);
    assert o.total == total && o.expiryTime == Some(now + 15 * 60 * 1000);
  }

  /** Cart items that name distinct counters never drive a non-negative counter below zero. */
  predicate DistinctItemKeys(products: map<string, Product>, cart: seq<CartItem>)
  {
    forall i, j :: 0 <= i < j < |cart| ==> ItemKey(products, cart[i]) != ItemKey(products, cart[j])
  }

  lemma PaymentNoOversell(s: DbState, session: Option<string>, req: PaymentRequest, now: nat,
                          suffix: string, gateway: Payload -> GatewayReply)
    requires Validate(s.products, req.items, true).Ok?
    requires DistinctItemKeys(s.products, req.items)
    ensures var s' := CreatePaymentSpec(s, session, req, now, suffix, gateway).1;
            forall k :: StockOf(s.products, k) >= 0 ==> StockOf(s'.products, k) >= 0
  {
    var lines := Validate(s.products, req.items, true).value;
    ValidateAccepts(s.products, req.items, true);
    forall i, j | 0 <= i < j < |lines|
      ensures LineKey(s.products, lines[i]) != LineKey(s.products, lines[j])
    {
      CheckedLine(s.products, req.items[i], true);
      CheckedLine(s.products, req.items[j], true);
    }
    NoOversellWithDistinctKeys(s.products, lines);
  }

  lemma {:induction false} DetailsSumOfLines(lines: seq<Line>)
    ensures DetailsSum(ItemDetailsOf(lines)) == Subtotal(lines)
    decreases |lines|
  {
    if lines != [] {
      var n := |lines| - 1;
      assert ItemDetailsOf(lines)[..n] == ItemDetailsOf(lines[..n]);
      DetailsSumOfLines(lines[..n]);
    }
  }

  /**
   * The gateway is asked for the server total: the item list is the validated
   * lines at database prices plus one SHIPPING line of quantity 1, so its
   * Σ price × quantity is exactly `gross_amount`. The city defaults to Jakarta
   * and the country is always IDN.
   */
  lemma PayloadBalances(orderId: string, req: PaymentRequest, lines: seq<Line>)
    ensures var p := BuildPayload(orderId, Subtotal(lines) + req.shippingCost, req, lines);
            && p.grossAmount == Subtotal(lines) + req.shippingCost
            && DetailsSum(p.itemDetails) == p.grossAmount
            && |p.itemDetails| == |lines| + 1
            && (forall i :: 0 <= i < |lines| ==>
                  p.itemDetails[i].id == lines[i].productId && p.itemDetails[i].price == lines[i].price
                  && p.itemDetails[i].quantity == lines[i].quantity)
            && p.itemDetails[|lines|].id == "SHIPPING" && p.itemDetails[|lines|].quantity == 1
            && p.itemDetails[|lines|].price == req.shippingCost
            && p.customer.shippingAddress.city
               == (if Truthy(req.customer.city) then req.customer.city.value else "Jakarta")
            && p.customer.shippingAddress.countryCode == "IDN"
  {
    var ds := ItemDetailsOf(lines) + [ShippingDetail(req)];
    assert ds[..|lines|] == ItemDetailsOf(lines);
    DetailsSumOfLines(lines);
  }

  /** Every committed state keeps the schema's key facts. */
  lemma PaymentKeepsValid(s: DbState, session: Option<string>, req: PaymentRequest, now: nat,
                          suffix: string, gateway: Payload -> GatewayReply)
    requires ValidState(s)
    ensures ValidState(CreatePaymentSpec(s, session, req, now, suffix, gateway).1)
  {
    if Truthy(session) && session.value in s.users && Validate(s.products, req.items, true).Ok? {
      var lines := Validate(s.products, req.items, true).value;
      var total := Subtotal(lines) + req.shippingCost;
      var id := OrderRef(now, suffix);
      if !TotalsDiffer(total, req.clientTotal) && !OrderIdTaken(s.orders, id) {
        CommitKeepsValid(s, lines, PaymentOrder(id, s.users[session.value], total,
                                                req.customer.address, now, lines));
      }
    }
  }

  // ---------------------------------------------------------------------------
  // The handler

  /** The route handler, run against the in-memory database. */
  method CreatePayment(db: Db, session: Option<string>, req: PaymentRequest, now: nat,
                       suffix: string, gateway: Payload -> GatewayReply)
    returns (resp: PaymentResponse)
    requires db.Valid()
    modifies db
    ensures db.Valid()
    ensures (resp, db.State()) == CreatePaymentSpec(old(db.State()), session, req, now, suffix, gateway)
  {
    PaymentKeepsValid(db.State(), session, req, now, suffix, gateway);
    if !Truthy(session) {
      return Failed(401, Unauthorized);
    }
    var email := session.value;
    if email !in db.users {
      return Failed(404, UserNotFound);
    }
    var userId := db.users[email];

    var outcome, serverTotal := ValidateItems(db, req.items, true);
    if outcome.Err? {
      return Failed(400, InvalidCart(outcome.error));
    }
    var lines := outcome.value;
    serverTotal := serverTotal + req.shippingCost;
    if TotalsDiffer(serverTotal, req.clientTotal) {
      return Failed(400, PriceMismatch);
    }

    var orderId := OrderRef(now, suffix);
    // The duplicate-key insert would throw and roll back the decrements: decide it first.
    if OrderIdTaken(db.orders, orderId) {
      return Failed(500, CreateFailed);
    }
    db.DecrementStock(lines);
    db.orders := db.orders + [PaymentOrder(orderId, userId, serverTotal, req.customer.address, now, lines)];

    var reply := gateway(BuildPayload(orderId, serverTotal, req, lines));
    match reply
    case Accepted(token, url) =>
      resp := Created(token, url, orderId);
    case Refused(status, body) =>
      resp := Failed(status, GatewayError(body));
    case Unreachable =>
      resp := Failed(500, CreateFailed);
    assert resp == ReplyToResponse(reply, orderId);
  }
}
