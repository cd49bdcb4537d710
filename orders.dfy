/**
 * `/api/orders`: `POST` validates the cart against the store, prices it from the
 * database, decrements stock and inserts an UNPAID order in one transaction;
 * `GET` lists the signed-in user's orders, newest first.
 */
module Orders {
  import opened Values
  import opened Store
  import opened Inventory

  /** The request body: `items`, `address`, `shippingCost = 0`, `shippingCourier`, `shippingService`. */
  datatype OrderRequest = OrderRequest(items: seq<CartItem>, address: string, shippingCost: Option<int>,
                                       shippingCourier: Option<string>, shippingService: Option<string>)

  datatype OrderError = Unauthorized | InvalidCart(reason: CartError) | CreateFailed

  datatype OrderResponse = Placed(order: Order) | Rejected(httpStatus: int, error: OrderError)

  datatype ListResponse = OrderList(orders: seq<Order>) | ListRejected(httpStatus: int, error: OrderError)

  /** The destructuring default `shippingCost = 0`. */
  function ShippingOf(req: OrderRequest): int
  {
    if req.shippingCost.Some? then req.shippingCost.value else 0
  }

  function PlacedOrder(id: string, userId: string, req: OrderRequest, lines: seq<Line>, total: int,
                       now: int): Order
  {
    Order(id, userId, total, req.address, UNPAID, None, Some(ShippingOf(req)),
          OrNull(req.shippingCourier), OrNull(req.shippingService), ItemsOf(lines), now)
  }

  /**
   * `POST`: the response and the database afterwards. `session` is the signed-in
   * user's e-mail, `newId` the id the database assigns, `now` its clock.
   */
  function PostSpec(s: DbState, session: Option<string>, req: OrderRequest, newId: string, now: int)
    : (OrderResponse, DbState)
  {
    if session.None? then (Rejected(401, Unauthorized), s)
    else
      match Validate(s.products, req.items, false)
      case Err(e) => (Rejected(400, InvalidCart(e)), s)
      case Ok(lines) =>
        var total := Subtotal(lines) + ShippingOf(req);
        // connecting an unknown user, or a duplicate id, throws and rolls the transaction back
        if session.value !in s.users || OrderIdTaken(s.orders, newId) then (Rejected(500, CreateFailed), s)
        else
          var o := PlacedOrder(newId, s.users[session.value], req, lines, total, now);
          (Placed(o), Commit(s, lines, o))
  }

  /** Orders of user `userId`, in table order. */
  function OwnedOrders(orders: seq<Order>, userId: string): (r: seq<Order>)
    ensures forall o :: o in r <==> o in orders && o.userId == userId
    ensures forall o :: o in multiset(r) ==> multiset(r)[o] == multiset(orders)[o]
    decreases |orders|
  {
    if orders == [] then []
    else
      var front := orders[..|orders| - 1];
      var last := orders[|orders| - 1];
      assert orders == front + [last];
      OwnedOrders(front, userId) + (if last.userId == userId then [last] else [])
  }

  predicate NewestFirstOrdered(r: seq<Order>)
  {
    forall i, j :: 0 <= i < j < |r| ==> r[i].createdAt >= r[j].createdAt
  }

  function InsertNewest(o: Order, sorted: seq<Order>): (r: seq<Order>)
    requires NewestFirstOrdered(sorted)
    ensures multiset(r) == multiset(sorted) + multiset{o}
    ensures NewestFirstOrdered(r)
    ensures r != [] && (r[0] == o || (sorted != [] && r[0] == sorted[0]))
    decreases |sorted|
  {
    if sorted == [] then [o]
    else if o.createdAt >= sorted[0].createdAt then [o] + sorted
    else
      assert sorted == [sorted[0]] + sorted[1..];
      [sorted[0]] + InsertNewest(o, sorted[1..])
  }

  /** `orderBy: { createdAt: 'desc' }`. */
  function NewestFirst(os: seq<Order>): (r: seq<Order>)
    ensures multiset(r) == multiset(os)
    ensures NewestFirstOrdered(r)
    decreases |os|
  {
    if os == [] then []
    else
      assert os == [os[0]] + os[1..];
      InsertNewest(os[0], NewestFirst(os[1..]))
  }

  /** Whether an order belongs to the user with this e-mail. */
  predicate Owned(s: DbState, email: string, o: Order)
  {
    email in s.users && o.userId == s.users[email]
  }

  /** `GET`: the signed-in user's orders, newest first. */
  function ListOrders(s: DbState, session: Option<string>): ListResponse
  {
    if session.None? then ListRejected(401, Unauthorized)
    else if session.value !in s.users then OrderList([])
    else OrderList(NewestFirst(OwnedOrders(s.orders, s.users[session.value])))
  }

  // ---------------------------------------------------------------------------
  // Properties of the routes

  /** Without a session both handlers answer 401 and nothing changes. */
  lemma UnauthorizedOrders(s: DbState, req: OrderRequest, newId: string, now: int)
    ensures PostSpec(s, None, req, newId, now) == (Rejected(401, Unauthorized), s)
    ensures ListOrders(s, None) == ListRejected(401, Unauthorized)
  {
  }

  /**
   * `GET` returns exactly the orders of the signed-in user (each as often as in
   * the table), sorted by `createdAt` descending.
   */
  lemma ListIsOwnOrdersNewestFirst(s: DbState, email: string)
    ensures ListOrders(s, Some(email)).OrderList?
    ensures var r := ListOrders(s, Some(email)).orders;
            && (forall o :: o in r <==> o in s.orders && Owned(s, email, o))
            && (forall o :: o in multiset(r) ==> multiset(r)[o] == multiset(s.orders)[o])
            && NewestFirstOrdered(r)
  {
    var r := ListOrders(s, Some(email)).orders;
    if email in s.users {
      var owned := OwnedOrders(s.orders, s.users[email]);
      assert multiset(r) == multiset(owned);
      forall o ensures o in r <==> o in owned {
        assert o in r <==> o in multiset(r);
        assert o in owned <==> o in multiset(owned);
      }
    }
  }

  /** The first rejected cart item decides the 400 answer, and the store is unchanged. */
  lemma InvalidCartOrder(s: DbState, email: string, req: OrderRequest, newId: string, now: int, i: nat)
    requires i < |req.items| && CheckItem(s.products, req.items[i], false).Err?
    requires forall j :: 0 <= j < i ==> CheckItem(s.products, req.items[j], false).Ok?
    ensures PostSpec(s, Some(email), req, newId, now)
            == (Rejected(400, InvalidCart(CheckItem(s.products, req.items[i], false).error)), s)
  {
    ValidateFirstError(s.products, req.items, false, i);
  }

  /** A failed insert (no such user, or a taken id) rolls back: 500 and the store unchanged. */
  lemma FailedInsertOrder(s: DbState, email: string, req: OrderRequest, newId: string, now: int)
    requires Validate(s.products, req.items, false).Ok?
    requires email !in s.users || OrderIdTaken(s.orders, newId)
    ensures PostSpec(s, Some(email), req, newId, now) == (Rejected(500, CreateFailed), s)
  {
  }

  /** The conditions under which `POST` commits its transaction. */
  predicate Commits(s: DbState, email: string, req: OrderRequest, newId: string)
  {
    && Validate(s.products, req.items, false).Ok?
    && email in s.users
    && !OrderIdTaken(s.orders, newId)
  }

  lemma PostCommitUnfolds(s: DbState, email: string, req: OrderRequest, newId: string, now: int)
    requires Commits(s, email, req, newId)
    ensures var lines := Validate(s.products, req.items, false).value;
            var o := PlacedOrder(newId, s.users[email], req, lines, Subtotal(lines) + ShippingOf(req), now);
            PostSpec(s, Some(email), req, newId, now) == (Placed(o), Commit(s, lines, o))
  {
    var lines := Validate(s.products, req.items, false).value;
    assert Validate(s.products, req.items, false) == Ok(lines);
  }

  /**
   * On the committing path every counter loses exactly the quantities of the cart
   * items that draw from it (the same variant-or-product rule as the payment
   * route) and nothing else in the catalogue or the users changes.
   */
  lemma PostCommitsStock(s: DbState, email: string, req: OrderRequest, newId: string, now: int)
    requires Commits(s, email, req, newId)
    ensures var s' := PostSpec(s, Some(email), req, newId, now).1;
            && s'.users == s.users
            && SameCatalog(s.products, s'.products)
            && forall k :: StockOf(s'.products, k)
                           == StockOf(s.products, k) - QtyFor(s.products, Validate(s.products, req.items, false).value, k)
  {
    PostCommitUnfolds(s, email, req, newId, now);
    var lines := Validate(s.products, req.items, false).value;
    ApplyLinesSameCatalog(s.products, lines);
    forall k ensures StockOf(ApplyLines(s.products, lines), k) == StockOf(s.products, k) - QtyFor(s.products, lines, k)
    {
      ApplyLinesStock(s.products, lines, k);
    }
  }

  /**
   * On the committing path the answer is the one appended order: UNPAID, total
   * Σ database price × quantity plus shipping (0 when absent), the shipping cost
   * stored, courier and service null when absent, items in cart order at
   * database prices with the client's variant id and name or null.
   */
  lemma PostCommitsOrder(s: DbState, email: string, req: OrderRequest, newId: string, now: int)
    requires Commits(s, email, req, newId)
    ensures var (resp, s') := PostSpec(s, Some(email), req, newId, now);
            var cart := req.items;
            var shipping := if req.shippingCost.Some? then req.shippingCost.value else 0;
            && resp.Placed?
            && s'.orders == s.orders + [resp.order]
            && var o := resp.order;
            && o.id == newId && o.userId == s.users[email] && o.status == UNPAID
            && o.total == CartValue(s.products, cart) + shipping
            && o.shippingCost == Some(shipping)
            && o.shippingCourier == OrNull(req.shippingCourier)
            && o.shippingService == OrNull(req.shippingService)
            && (o.shippingCourier.Some? <==> Truthy(req.shippingCourier))
            && o.expiryTime.None?
            && |o.items| == |cart|
            && forall i :: 0 <= i < |cart| ==>
                 && cart[i].productId in s.products
                 && o.items[i] == OrderItem(cart[i].productId, cart[i].quantity,
                                            s.products[cart[i].productId].price,
                                            OrNull(cart[i].variantId), OrNull(cart[i].variantName))
  {
    PostCommitUnfolds(s, email, req, newId, now);
    SubtotalIsCartValue(s.products, req.items, false);
    var lines := Validate(s.products, req.items, false).value;
    ValidateAccepts(s.products, req.items, false);
    forall i | 0 <= i < |req.items|
      ensures req.items[i].productId in s.products
      ensures lines[i] == LineOf(s.products[req.items[i].productId], req.items[i])
    {
      CheckedLine(s.products, req.items[i], false);
    }
  }

  /**
   * Unlike the payment route, this route has no quantity check: a negative
   * quantity is accepted, lowers the total and raises the stock.
   */
  lemma NegativeQuantityAccepted()
    ensures var s := DbState(map["ana@example.com" := "u1"], map["mug" := Product("Mug", 50000, 0, [])], []);
            var req := OrderRequest([CartItem("mug", None, None, -2, None)], "Jl. Merdeka 1", None, None, None);
            var (resp, s') := PostSpec(s, Some("ana@example.com"), req, "o1", 0);
            && resp.Placed? && resp.order.total == -100000
            && StockOf(s'.products, ProductKey("mug")) == 2
  {
    var products := map["mug" := Product("Mug", 50000, 0, [])];
    var item := CartItem("mug", None, None, -2, None);
    var line := LineOf(products["mug"], item);
    assert CheckItem(products, item, false) == Ok(line);
    assert [item][..0] == [];
    assert Validate(products, [], false) == Ok([]);
    assert [] + [line] == [line];
    assert Validate(products, [item], false) == Ok([line]);
    assert [line][..0] == [];
    assert Subtotal([line]) == -100000;
    assert ApplyLines(products, []) == products;
    assert ApplyLines(products, [line]) == ApplyLine(products, line);
  }

  lemma PostKeepsValid(s: DbState, session: Option<string>, req: OrderRequest, newId: string, now: int)
    requires ValidState(s)
    ensures ValidState(PostSpec(s, session, req, newId, now).1)
  {
    if session.Some? && Validate(s.products, req.items, false).Ok?
       && session.value in s.users && !OrderIdTaken(s.orders, newId) {
      var lines := Validate(s.products, req.items, false).value;
      var o := PlacedOrder(newId, s.users[session.value], req, lines, Subtotal(lines) + ShippingOf(req), now);
      CommitKeepsValid(s, lines, o);
    }
  }

  // ---------------------------------------------------------------------------
  // The handler

  /** `POST /api/orders`, run against the in-memory database. */
  method Post(db: Db, session: Option<string>, req: OrderRequest, newId: string, now: int)
    returns (resp: OrderResponse)
    requires db.Valid()
    modifies db
    ensures db.Valid()
    ensures (resp, db.State()) == PostSpec(old(db.State()), session, req, newId, now)
  {
    PostKeepsValid(db.State(), session, req, newId, now);
    if session.None? {
      return Rejected(401, Unauthorized);
    }
    var outcome, subtotal := ValidateItems(db, req.items, false);
    if outcome.Err? {
      return Rejected(400, InvalidCart(outcome.error));
    }
    var lines := outcome.value;
    var total := subtotal + ShippingOf(req);
    // A failed insert would roll the decrements back: decide it first.
    if session.value !in db.users || OrderIdTaken(db.orders, newId) {
      return Rejected(500, CreateFailed);
    }
    db.DecrementStock(lines);
    var order := PlacedOrder(newId, db.users[session.value], req, lines, total, now);
    db.orders := db.orders + [order];
    resp := Placed(order);
  }
}
