/**
 * `POST /api/payment/webhook`: the gateway's asynchronous payment notification.
 * Pings without the required fields are acknowledged, the signature is checked,
 * the order is looked up and its status overwritten with the mapped gateway
 * status. Every answer is HTTP 200.
 */
module Webhook {
  import opened Values
  import opened Store

  /** The notification body; `grossAmount` is the text `String(gross_amount)`. */
  datatype Notification = Notification(orderId: Option<string>, transactionStatus: Option<string>,
                                       fraudStatus: Option<string>, signatureKey: Option<string>,
                                       grossAmount: string)

  /** The JSON envelope: `status` is `ok`, `error` or `success`. */
  datatype Envelope =
    | StatusOk(message: string)
    | StatusError(message: string)
    | StatusSuccess(message: string, orderId: string, newStatus: OrderStatus)

  datatype WebhookResponse = WebhookResponse(httpStatus: int, body: Envelope)

  /** `String(gross_amount).split('.')[0]`: the text before the first `.`. */
  function AmountText(gross: string): (r: string)
    ensures r <= gross
    ensures '.' !in r
    ensures |r| < |gross| ==> gross[|r|] == '.'
  {
    if gross == [] || gross[0] == '.' then []
    else [gross[0]] + AmountText(gross[1..])
  }

  /** The hex digest the route expects, `digest` standing for SHA-512. */
  function ExpectedSignature(digest: string -> string, orderId: string, transactionStatus: string,
                             amount: string, serverKey: string): string
  {
    digest(orderId + transactionStatus + amount + serverKey)
  }

  /**
   * The gateway status mapped to an order status: an accepted capture or a
   * settlement is PAID; cancel, deny and expire are CANCELLED; everything else,
   * a capture that is not accepted, pending and unknown statuses, is UNPAID.
   */
  function MapStatus(transactionStatus: string, fraudStatus: Option<string>): (r: OrderStatus)
    ensures r == PAID <==>
              (transactionStatus == "capture" && fraudStatus == Some("accept"))
              || transactionStatus == "settlement"
    ensures r == CANCELLED <==>
              transactionStatus == "cancel" || transactionStatus == "deny" || transactionStatus == "expire"
    ensures r == UNPAID || r == PAID || r == CANCELLED
  {
    if transactionStatus == "capture" then
      if fraudStatus == Some("accept") then PAID else UNPAID
    else if transactionStatus == "settlement" then PAID
    else if transactionStatus == "cancel" || transactionStatus == "deny" || transactionStatus == "expire" then CANCELLED
    else UNPAID
  }

  /** `order.findFirst({ where: { id } })`: the position of the first order with that id. */
  function FindOrder(orders: seq<Order>, id: string): (r: Option<nat>)
    ensures r.None? <==> !OrderIdTaken(orders, id)
    ensures r.Some? ==> r.value < |orders| && orders[r.value].id == id
                        && forall j :: 0 <= j < r.value ==> orders[j].id != id
    decreases |orders|
  {
    if orders == [] then None
    else if orders[0].id == id then Some(0)
    else
      match FindOrder(orders[1..], id)
      case None => None
      case Some(i) => Some(i + 1)
  }

  /** The route: the response and the orders table afterwards. */
  function Reconcile(orders: seq<Order>, n: Notification, digest: string -> string, serverKey: string)
    : (WebhookResponse, seq<Order>)
  {
    if !Truthy(n.orderId) || !Truthy(n.transactionStatus) then
      (WebhookResponse(200, StatusOk("Test notification received")), orders)
    else
      var id := n.orderId.value;
      var amount := AmountText(n.grossAmount);
      var expected := ExpectedSignature(digest, id, n.transactionStatus.value, amount, serverKey);
      if n.signatureKey != Some(expected) then
        (WebhookResponse(200, StatusError("Invalid signature")), orders)
      else
        match FindOrder(orders, id)
        case None => (WebhookResponse(200, StatusError("Order not found")), orders)
        case Some(i) =>
          var status := MapStatus(n.transactionStatus.value, n.fraudStatus);
          (WebhookResponse(200, StatusSuccess("Webhook processed successfully", id, status)),
           orders[i := orders[i].(status := status)])
  }

  /** The notification carries a signature the route accepts. */
  predicate Authentic(n: Notification, digest: string -> string, serverKey: string)
  {
    && Truthy(n.orderId) && Truthy(n.transactionStatus)
    && n.signatureKey == Some(ExpectedSignature(digest, n.orderId.value, n.transactionStatus.value,
                                                AmountText(n.grossAmount), serverKey))
  }

  // ---------------------------------------------------------------------------
  // Properties of the reconciler

  /** Every path answers HTTP 200, whatever the notification. */
  lemma AlwaysHttp200(orders: seq<Order>, n: Notification, digest: string -> string, serverKey: string)
    ensures Reconcile(orders, n, digest, serverKey).0.httpStatus == 200
  {
  }

  /** A ping without order id or transaction status is acknowledged with no lookup and no write. */
  lemma PingIgnored(orders: seq<Order>, n: Notification, digest: string -> string, serverKey: string)
    requires !Truthy(n.orderId) || !Truthy(n.transactionStatus)
    ensures Reconcile(orders, n, digest, serverKey)
            == (WebhookResponse(200, StatusOk("Test notification received")), orders)
  {
  }

  /** A signature that does not match the recomputed digest changes no order. */
  lemma BadSignatureIgnored(orders: seq<Order>, n: Notification, digest: string -> string, serverKey: string)
    requires Truthy(n.orderId) && Truthy(n.transactionStatus) && !Authentic(n, digest, serverKey)
    ensures Reconcile(orders, n, digest, serverKey)
            == (WebhookResponse(200, StatusError("Invalid signature")), orders)
  {
  }

  /**
   * The signature covers the amount only up to its first `.`: two notifications
   * whose amounts agree there are both authentic or both not.
   */
  lemma SignatureIgnoresDecimals(n: Notification, cents: string, digest: string -> string, serverKey: string)
    requires '.' !in n.grossAmount
    ensures Authentic(n.(grossAmount := n.grossAmount + "." + cents), digest, serverKey)
            == Authentic(n, digest, serverKey)
  {
    AmountPrefix(n.grossAmount, cents);
  }

  lemma {:induction false} AmountPrefix(whole: string, cents: string)
    requires '.' !in whole
    ensures AmountText(whole + "." + cents) == AmountText(whole) == whole
    decreases |whole|
  {
    if whole != [] {
      assert (whole + "." + cents)[1..] == whole[1..] + "." + cents;
      assert whole[1..] + [] == whole[1..];
      AmountPrefix(whole[1..], cents);
    } else {
      assert whole + "." + cents == ['.'] + cents;
    }
  }

  /** An authentic notification for an unknown order changes no order. */
  lemma UnknownOrderIgnored(orders: seq<Order>, n: Notification, digest: string -> string, serverKey: string)
    requires Authentic(n, digest, serverKey) && !OrderIdTaken(orders, n.orderId.value)
    ensures Reconcile(orders, n, digest, serverKey)
            == (WebhookResponse(200, StatusError("Order not found")), orders)
  {
  }

  /**
   * An authentic notification for an existing order overwrites that order's
   * status, and only its status, with the mapped gateway status; every other
   * order is untouched.
   */
  lemma AuthenticUpdatesOnlyThatOrder(orders: seq<Order>, n: Notification, digest: string -> string,
                                      serverKey: string)
    requires OrderIdsUnique(orders)
    requires Authentic(n, digest, serverKey) && OrderIdTaken(orders, n.orderId.value)
    ensures var (resp, orders') := Reconcile(orders, n, digest, serverKey);
            var status := MapStatus(n.transactionStatus.value, n.fraudStatus);
            && resp == WebhookResponse(200, StatusSuccess("Webhook processed successfully", n.orderId.value, status))
            && |orders'| == |orders|
            && forall j :: 0 <= j < |orders| ==>
                 orders'[j] == if orders[j].id == n.orderId.value then orders[j].(status := status) else orders[j]
  {
    var i := FindOrder(orders, n.orderId.value).value;
    forall j | 0 <= j < |orders| && j != i ensures orders[j].id != n.orderId.value {
      if j < i {
      } else {
        assert orders[i].id != orders[j].id;
      }
    }
  }

  /** Where an order sits in the table does not depend on any order's status. */
  lemma {:induction false} FindOrderIgnoresStatus(orders: seq<Order>, i: nat, status: OrderStatus, id: string)
    requires i < |orders|
    ensures FindOrder(orders[i := orders[i].(status := status)], id) == FindOrder(orders, id)
    decreases |orders|
  {
    var updated := orders[i := orders[i].(status := status)];
    if i > 0 {
      assert updated[1..] == orders[1..][i - 1 := orders[i].(status := status)];
      FindOrderIgnoresStatus(orders[1..], i - 1, status, id);
    } else {
      assert updated[1..] == orders[1..];
    }
  }

  /**
   * The new status depends only on the notification, never on the order's old
   * status: whatever status the order had, the outcome is the same.
   */
  lemma OldStatusIrrelevant(orders: seq<Order>, n: Notification, digest: string -> string, serverKey: string,
                            oldStatus: OrderStatus)
    requires Authentic(n, digest, serverKey) && OrderIdTaken(orders, n.orderId.value)
    ensures var i := FindOrder(orders, n.orderId.value).value;
            Reconcile(orders[i := orders[i].(status := oldStatus)], n, digest, serverKey)
            == Reconcile(orders, n, digest, serverKey)
  {
    var i := FindOrder(orders, n.orderId.value).value;
    FindOrderIgnoresStatus(orders, i, oldStatus, n.orderId.value);
    var status := MapStatus(n.transactionStatus.value, n.fraudStatus);
    var reset := orders[i := orders[i].(status := oldStatus)];
    assert reset[i := reset[i].(status := status)] == orders[i := orders[i].(status := status)];
  }

  /** Delivering the same notification twice leaves the same answer and table as delivering it once. */
  lemma Idempotent(orders: seq<Order>, n: Notification, digest: string -> string, serverKey: string)
    ensures var (resp, once) := Reconcile(orders, n, digest, serverKey);
            Reconcile(once, n, digest, serverKey) == (resp, once)
  {
    if Authentic(n, digest, serverKey) && OrderIdTaken(orders, n.orderId.value) {
      var i := FindOrder(orders, n.orderId.value).value;
      var status := MapStatus(n.transactionStatus.value, n.fraudStatus);
      FindOrderIgnoresStatus(orders, i, status, n.orderId.value);
      var once := orders[i := orders[i].(status := status)];
      assert once[i := once[i].(status := status)] == once;
    }
  }

  /**
   * There is no forward-only guard: an authentic `pending` notification, or a
   * capture the fraud check did not accept, puts a PAID order back to UNPAID.
   */
  lemma LateNotificationRevertsPaid(orders: seq<Order>, n: Notification, digest: string -> string,
                                    serverKey: string)
    requires Authentic(n, digest, serverKey) && OrderIdTaken(orders, n.orderId.value)
    requires n.transactionStatus == Some("pending")
             || (n.transactionStatus == Some("capture") && n.fraudStatus != Some("accept"))
    ensures var i := FindOrder(orders, n.orderId.value).value;
            Reconcile(orders, n, digest, serverKey).1[i].status == UNPAID
  {
  }

  // ---------------------------------------------------------------------------
  // The handler

  /** The route handler: the single in-place write is the found order's status. */
  method HandleNotification(db: Db, n: Notification, digest: string -> string, serverKey: string)
    returns (resp: WebhookResponse)
    requires db.Valid()
    modifies db`orders
    ensures db.Valid()
    ensures (resp, db.orders) == Reconcile(old(db.orders), n, digest, serverKey)
  {
    if !Truthy(n.orderId) || !Truthy(n.transactionStatus) {
      return WebhookResponse(200, StatusOk("Test notification received"));
    }
    var orderId := n.orderId.value;
    var transactionStatus := n.transactionStatus.value;
    var amount := AmountText(n.grossAmount);
    var expected := ExpectedSignature(digest, orderId, transactionStatus, amount, serverKey);
    if n.signatureKey != Some(expected) {
      return WebhookResponse(200, StatusError("Invalid signature"));
    }
    var found := FindOrder(db.orders, orderId);
    if found.None? {
      return WebhookResponse(200, StatusError("Order not found"));
    }

    var newStatus := UNPAID;
    if transactionStatus == "capture" {
      if n.fraudStatus == Some("accept") {
        newStatus := PAID;
      }
    } else if transactionStatus == "settlement" {
      newStatus := PAID;
    } else if transactionStatus == "cancel" || transactionStatus == "deny" || transactionStatus == "expire" {
      newStatus := CANCELLED;
    } else if transactionStatus == "pending" {
      newStatus := UNPAID;
    }

    var i := found.value;
    ghost var before := db.orders;
    db.orders := db.orders[i := db.orders[i].(status := newStatus)];
    assert forall j :: 0 <= j < |db.orders| ==> db.orders[j].id == before[j].id;
    resp := WebhookResponse(200, StatusSuccess("Webhook processed successfully", orderId, newStatus));
  }
}
