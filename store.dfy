/**
 * The database the checkout routes work on, modelled in memory: products with
 * their variants, users and the orders table, plus the stock decrement that
 * both order-creating routes run inside their transaction.
 */
module Store {
  import opened Values

  /** A product variant; when a product has variants its stock is tracked per variant. */
  datatype Variant = Variant(id: string, name: string, stock: int)

  /** A product row, keyed by its id in the store; `price` is in whole rupiah. */
  datatype Product = Product(name: string, price: int, stock: int, variants: seq<Variant>)

  datatype OrderStatus = UNPAID | PAID | PACKED | SHIPPED | COMPLETED | CANCELLED

  /** One row of an order's items: a snapshot of the price at purchase time. */
  datatype OrderItem = OrderItem(productId: string, quantity: int, price: int,
                                 variantId: Option<string>, variantName: Option<string>)

  /**
   * An order row. `expiryTime` and `createdAt` are milliseconds since the epoch;
   * `None` in `shippingCost` means the route left the column to its schema default.
   */
  datatype Order = Order(id: string, userId: string, total: int, address: string,
                         status: OrderStatus, expiryTime: Option<int>,
                         shippingCost: Option<int>, shippingCourier: Option<string>,
                         shippingService: Option<string>, items: seq<OrderItem>,
                         createdAt: int)

  /** A validated cart line: database price, client quantity, resolved variant. */
  datatype Line = Line(productId: string, name: string, price: int, quantity: int,
                       variantId: Option<string>, variantName: Option<string>)

  /** Which stock counter a line draws from. */
  datatype StockKey = ProductKey(productId: string) | VariantKey(productId: string, variantId: string)

  /** The whole database: users by (unique) e-mail to user id, products by id, orders. */
  datatype DbState = DbState(users: map<string, string>, products: map<string, Product>,
                             orders: seq<Order>)

  predicate HasVariants(p: Product)
  {
    |p.variants| > 0
  }

  /** `variants.find(v => v.id === id)`: the first variant with that id. */
  function FindVariant(vs: seq<Variant>, id: string): (r: Option<Variant>)
    ensures r.Some? ==> r.value.id == id
  {
    if vs == [] then None
    else if vs[0].id == id then Some(vs[0])
    else FindVariant(vs[1..], id)
  }

  /**
   * `find` answers `undefined` exactly when no variant has the id, and otherwise
   * the first variant that has it.
   */
  lemma {:induction false} FindVariantFirst(vs: seq<Variant>, id: string)
    ensures FindVariant(vs, id).None? <==> forall i :: 0 <= i < |vs| ==> vs[i].id != id
    ensures FindVariant(vs, id).Some? ==>
              exists i :: 0 <= i < |vs| && vs[i] == FindVariant(vs, id).value
                          && forall j :: 0 <= j < i ==> vs[j].id != id
    decreases |vs|
  {
    if vs != [] && vs[0].id != id {
      FindVariantFirst(vs[1..], id);
      var r := FindVariant(vs[1..], id);
      assert forall i :: 1 <= i < |vs| ==> vs[i] == vs[1..][i - 1];
      if r.Some? {
        var k :| 0 <= k < |vs[1..]| && vs[1..][k] == r.value && forall j :: 0 <= j < k ==> vs[1..][j].id != id;
        assert vs[k + 1] == r.value && forall j :: 0 <= j < k + 1 ==> vs[j].id != id;
      }
    } else if vs != [] {
      assert vs[0] == FindVariant(vs, id).value;
    }
  }

  /** The current value of a stock counter (0 for a counter that does not exist). */
  function StockOf(products: map<string, Product>, k: StockKey): int
  {
    match k
    case ProductKey(p) =>
      if p in products then products[p].stock else 0
    case VariantKey(p, v) =>
      if p in products && FindVariant(products[p].variants, v).Some?
      then FindVariant(products[p].variants, v).value.stock
      else 0
  }

  /**
   * The counter the transaction decrements for a line: the variant's when the
   * product (re-read in the transaction) has variants and the line names one,
   * otherwise the product's own.
   */
  function LineKey(products: map<string, Product>, l: Line): StockKey
  {
    if l.productId in products && HasVariants(products[l.productId]) && Truthy(l.variantId)
    then VariantKey(l.productId, l.variantId.value)
    else ProductKey(l.productId)
  }

  /** `variant.update({ where: { id }, data: { stock: { decrement: q } } })` on one product's variants. */
  function DecVariant(vs: seq<Variant>, id: string, q: int): seq<Variant>
  {
    seq(|vs|, i requires 0 <= i < |vs| => if vs[i].id == id then vs[i].(stock := vs[i].stock - q) else vs[i])
  }

  /** Two products that differ at most in their stock counters. */
  predicate SameProduct(p: Product, q: Product)
  {
    && q.name == p.name && q.price == p.price
    && |q.variants| == |p.variants|
    && forall i :: 0 <= i < |p.variants| ==> q.variants[i] == p.variants[i].(stock := q.variants[i].stock)
  }

  /** Two catalogues with the same products that differ at most in stock counters. */
  predicate SameCatalog(p: map<string, Product>, q: map<string, Product>)
  {
    p.Keys == q.Keys && forall id :: id in p ==> SameProduct(p[id], q[id])
  }

  predicate LinesInCatalog(products: map<string, Product>, lines: seq<Line>)
  {
    forall i :: 0 <= i < |lines| ==> lines[i].productId in products
  }

  /** The line's product exists and, on the variant path, so does the variant. */
  predicate LineResolved(products: map<string, Product>, l: Line)
  {
    && l.productId in products
    && (LineKey(products, l).VariantKey? ==>
          FindVariant(products[l.productId].variants, l.variantId.value).Some?)
  }

  predicate LinesResolved(products: map<string, Product>, lines: seq<Line>)
  {
    forall i :: 0 <= i < |lines| ==> LineResolved(products, lines[i])
  }

  /** Each line asks for no more than its counter held before the order. */
  predicate LinesFit(products: map<string, Product>, lines: seq<Line>)
  {
    forall i :: 0 <= i < |lines| ==> lines[i].quantity <= StockOf(products, LineKey(products, lines[i]))
  }

  /** No two lines draw from the same counter. */
  predicate DistinctKeys(products: map<string, Product>, lines: seq<Line>)
  {
    forall i, j :: 0 <= i < j < |lines| ==> LineKey(products, lines[i]) != LineKey(products, lines[j])
  }

  /** One step of the transaction loop: decrement the variant's or the product's stock. */
  function ApplyLine(products: map<string, Product>, l: Line): (r: map<string, Product>)
    requires l.productId in products
    ensures r.Keys == products.Keys
  {
    var p := products[l.productId];
    if HasVariants(p) && Truthy(l.variantId)
    then products[l.productId := p.(variants := DecVariant(p.variants, l.variantId.value, l.quantity))]
    else products[l.productId := p.(stock := p.stock - l.quantity)]
  }

  /** The whole transaction loop, lines taken in order. */
  function ApplyLines(products: map<string, Product>, lines: seq<Line>): (r: map<string, Product>)
    requires LinesInCatalog(products, lines)
    ensures r.Keys == products.Keys
    decreases |lines|
  {
    if lines == [] then products
    else
      var prev := ApplyLines(products, lines[..|lines| - 1]);
      ApplyLine(prev, lines[|lines| - 1])
  }

  /** The total quantity the lines take from counter `k`. */
  function QtyFor(products: map<string, Product>, lines: seq<Line>, k: StockKey): int
    decreases |lines|
  {
    if lines == [] then 0
    else
      QtyFor(products, lines[..|lines| - 1], k)
      + (if LineKey(products, lines[|lines| - 1]) == k then lines[|lines| - 1].quantity else 0)
  }

  function ItemOf(l: Line): OrderItem
  {
    OrderItem(l.productId, l.quantity, l.price, l.variantId, l.variantName)
  }

  /** `validatedItems.map(item => ({ productId, quantity, price, variantId, variantName }))`. */
  function ItemsOf(lines: seq<Line>): seq<OrderItem>
  {
    seq(|lines|, i requires 0 <= i < |lines| => ItemOf(lines[i]))
  }

  predicate OrderIdTaken(orders: seq<Order>, id: string)
  {
    exists i :: 0 <= i < |orders| && orders[i].id == id
  }

  predicate OrderIdsUnique(orders: seq<Order>)
  {
    forall i, j :: 0 <= i < j < |orders| ==> orders[i].id != orders[j].id
  }

  predicate VariantIdsUnique(vs: seq<Variant>)
  {
    forall i, j :: 0 <= i < j < |vs| ==> vs[i].id != vs[j].id
  }

  /** The primary-key facts of the schema that the model relies on. */
  predicate ValidState(s: DbState)
  {
    && OrderIdsUnique(s.orders)
    && forall id :: id in s.products ==> VariantIdsUnique(s.products[id].variants)
  }

  /** The committed transaction: every stock decrement plus the inserted order. */
  function Commit(s: DbState, lines: seq<Line>, o: Order): (r: DbState)
    requires LinesInCatalog(s.products, lines)
    ensures r.users == s.users && r.orders == s.orders + [o]
  {
    s.(products := ApplyLines(s.products, lines), orders := s.orders + [o])
  }

  // ---------------------------------------------------------------------------
  // Stock bookkeeping

  lemma {:induction false} FindDecVariant(vs: seq<Variant>, id: string, q: int, v: string)
    ensures FindVariant(DecVariant(vs, id, q), v) ==
              match FindVariant(vs, v)
              case None => None
              case Some(x) => Some(if v == id then x.(stock := x.stock - q) else x)
    decreases |vs|
  {
    if vs != [] {
      var ds := DecVariant(vs, id, q);
      assert ds[0].id == vs[0].id;
      assert ds[1..] == DecVariant(vs[1..], id, q);
      if vs[0].id != v {
        assert FindVariant(vs, v) == FindVariant(vs[1..], v);
        assert FindVariant(ds, v) == FindVariant(ds[1..], v);
        FindDecVariant(vs[1..], id, q, v);
      }
    }
  }

  /** Whether a variant id is found depends only on the variants' ids. */
  lemma {:induction false} FindVariantSameIds(a: seq<Variant>, b: seq<Variant>, v: string)
    requires |a| == |b| && forall i :: 0 <= i < |a| ==> a[i].id == b[i].id
    ensures FindVariant(a, v).Some? == FindVariant(b, v).Some?
    decreases |a|
  {
    if a != [] {
      FindVariantSameIds(a[1..], b[1..], v);
    }
  }

  lemma FindVariantSameProduct(p: Product, q: Product, v: string)
    requires SameProduct(p, q)
    ensures FindVariant(q.variants, v).Some? == FindVariant(p.variants, v).Some?
  {
    FindVariantSameIds(p.variants, q.variants, v);
  }

  /** A line's counter, and whether it resolves, depend only on the catalogue's shape. */
  lemma SameCatalogLine(p: map<string, Product>, q: map<string, Product>, l: Line)
    requires SameCatalog(p, q) && LineResolved(p, l)
    ensures LineKey(q, l) == LineKey(p, l) && LineResolved(q, l)
  {
    if LineKey(p, l).VariantKey? {
      FindVariantSameProduct(p[l.productId], q[l.productId], l.variantId.value);
    }
  }

  /** A decrement changes only the stock of one variant or product. */
  lemma ApplyLineSameCatalog(products: map<string, Product>, l: Line)
    requires l.productId in products
    ensures SameCatalog(products, ApplyLine(products, l))
  {
  }

  /** The transaction loop changes stock counters and nothing else in the catalogue. */
  lemma {:induction false} ApplyLinesSameCatalog(products: map<string, Product>, lines: seq<Line>)
    requires LinesInCatalog(products, lines)
    ensures SameCatalog(products, ApplyLines(products, lines))
    decreases |lines|
  {
    if lines != [] {
      var front := lines[..|lines| - 1];
      assert LinesInCatalog(products, front);
      ApplyLinesSameCatalog(products, front);
      var prev := ApplyLines(products, front);
      ApplyLineSameCatalog(prev, lines[|lines| - 1]);
    }
  }

  /** One decrement takes the line's quantity from the line's counter and from no other. */
  lemma ApplyLineStock(products: map<string, Product>, l: Line, k: StockKey)
    requires LineResolved(products, l)
    ensures StockOf(ApplyLine(products, l), k)
            == StockOf(products, k) - (if LineKey(products, l) == k then l.quantity else 0)
  {
    var p := products[l.productId];
    var r := ApplyLine(products, l);
    if HasVariants(p) && Truthy(l.variantId) {
      match k
      case ProductKey(_) =>
      case VariantKey(pid, v) =>
        if pid == l.productId {
          FindDecVariant(p.variants, l.variantId.value, l.quantity, v);
        }
    }
  }

  /**
   * After the transaction loop every counter holds its initial value minus the
   * quantities of exactly the lines that draw from it.
   */
  lemma {:induction false} ApplyLinesStock(products: map<string, Product>, lines: seq<Line>, k: StockKey)
    requires LinesResolved(products, lines)
    ensures StockOf(ApplyLines(products, lines), k) == StockOf(products, k) - QtyFor(products, lines, k)
    decreases |lines|
  {
    if lines != [] {
      var front := lines[..|lines| - 1];
      var last := lines[|lines| - 1];
      assert LinesResolved(products, front);
      ApplyLinesStock(products, front, k);
      var prev := ApplyLines(products, front);
      ApplyLinesSameCatalog(products, front);
      SameCatalogLine(products, prev, last);
      ApplyLineStock(prev, last, k);
    }
  }

  lemma {:induction false} QtyForAbsent(products: map<string, Product>, lines: seq<Line>, k: StockKey)
    requires forall i :: 0 <= i < |lines| ==> LineKey(products, lines[i]) != k
    ensures QtyFor(products, lines, k) == 0
    decreases |lines|
  {
    if lines != [] {
      QtyForAbsent(products, lines[..|lines| - 1], k);
    }
  }

  /** With distinct counters, a counter is drawn on by at most one line. */
  lemma {:induction false} QtyForDistinct(products: map<string, Product>, lines: seq<Line>, k: StockKey)
    requires DistinctKeys(products, lines)
    ensures QtyFor(products, lines, k) == 0
            || exists i :: 0 <= i < |lines| && LineKey(products, lines[i]) == k
                           && QtyFor(products, lines, k) == lines[i].quantity
    decreases |lines|
  {
    if lines != [] {
      var n := |lines| - 1;
      var front := lines[..n];
      if LineKey(products, lines[n]) == k {
        QtyForAbsent(products, front, k);
      } else {
        QtyForDistinct(products, front, k);
        if QtyFor(products, front, k) != 0 {
          var i :| 0 <= i < |front| && LineKey(products, front[i]) == k
                   && QtyFor(products, front, k) == front[i].quantity;
          assert lines[i] == front[i];
        }
      }
    }
  }

  /**
   * Stock is checked line by line against the stock before the order, so when no
   * two lines draw from the same counter no counter that started non-negative
   * ends negative.
   */
  lemma NoOversellWithDistinctKeys(products: map<string, Product>, lines: seq<Line>)
    requires LinesResolved(products, lines) && LinesFit(products, lines)
    requires DistinctKeys(products, lines)
    ensures forall k :: StockOf(products, k) >= 0 ==> StockOf(ApplyLines(products, lines), k) >= 0
  {
    forall k | StockOf(products, k) >= 0
      ensures StockOf(ApplyLines(products, lines), k) >= 0
    {
      ApplyLinesStock(products, lines, k);
      QtyForDistinct(products, lines, k);
    }
  }

  lemma SameCatalogKeepsValid(s: DbState, products: map<string, Product>)
    requires ValidState(s) && SameCatalog(s.products, products)
    ensures ValidState(s.(products := products))
  {
    forall id | id in products
      ensures VariantIdsUnique(products[id].variants)
    {
      assert SameProduct(s.products[id], products[id]);
    }
  }

  /** Committing an order with a fresh id keeps the schema's key facts. */
  lemma CommitKeepsValid(s: DbState, lines: seq<Line>, o: Order)
    requires ValidState(s) && LinesInCatalog(s.products, lines) && !OrderIdTaken(s.orders, o.id)
    ensures ValidState(Commit(s, lines, o))
  {
    var r := Commit(s, lines, o);
    ApplyLinesSameCatalog(s.products, lines);
    SameCatalogKeepsValid(s, r.products);
    assert OrderIdsUnique(r.orders) by {
      forall i, j | 0 <= i < j < |r.orders| ensures r.orders[i].id != r.orders[j].id {
        if j == |s.orders| {
          assert r.orders[i] == s.orders[i];
        }
      }
    }
  }

  /** The in-memory database: fields updated in place by the route handlers. */
  class Db {
    var users: map<string, string>
    var products: map<string, Product>
    var orders: seq<Order>

    function State(): DbState
      reads this
    {
      DbState(users, products, orders)
    }

    ghost predicate Valid()
      reads this
    {
      ValidState(State())
    }

    constructor (s: DbState)
      requires ValidState(s)
      ensures State() == s
      ensures Valid()
    {
      users := s.users;
      products := s.products;
      orders := s.orders;
    }

    /**
     * The transaction's loop over the validated lines: re-read each line's
     * product and decrement its variant's or its own stock. There is no second
     * stock check here.
     */
    method DecrementStock(lines: seq<Line>)
      requires LinesInCatalog(products, lines)
      modifies this`products
      ensures products == ApplyLines(old(products), lines)
    {
      var i := 0;
      while i < |lines|
        invariant 0 <= i <= |lines|
        invariant LinesInCatalog(old(products), lines[..i])
        invariant products == ApplyLines(old(products), lines[..i])
      {
        var line := lines[i];
        assert lines[..i + 1][..i] == lines[..i] && lines[..i + 1][i] == line;
        assert LinesInCatalog(old(products), lines[..i + 1]);
        assert ApplyLines(old(products), lines[..i + 1]) == ApplyLine(products, line);
        var product := products[line.productId];
        if HasVariants(product) && Truthy(line.variantId) {
          products := products[line.productId :=
            product.(variants := DecVariant(product.variants, line.variantId.value, line.quantity))];
        } else {
          products := products[line.productId := product.(stock := product.stock - line.quantity)];
        }
        i := i + 1;
      }
      assert lines[..|lines|] == lines;
    }
  }
}
