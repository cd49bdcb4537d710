/**
 * Cart validation and pricing shared by the two order-creating routes: each cart
 * item is looked up in the product store and checked, the validated lines carry
 * the database price, and the subtotal is their sum.
 */
module Inventory {
  import opened Values
  import opened Store

  /**
   * One cart item as the client sends it. `clientPrice` is whatever price the
   * client shows; the routes never read it.
   */
  datatype CartItem = CartItem(productId: string, variantId: Option<string>,
                               variantName: Option<string>, quantity: int,
                               clientPrice: Option<int>)

  /** The per-item rejections, each answered with HTTP 400. */
  datatype CartError =
    | ProductNotFound(productId: string)
    | VariantRequired(product: string)
    | VariantNotFound(product: string)
    | InsufficientStock(product: string, variant: Option<string>)
    | InvalidQuantity(product: string)

  /** The counter an item is checked against: the chosen variant's, or the product's. */
  function ItemKey(products: map<string, Product>, item: CartItem): StockKey
  {
    if item.productId in products && HasVariants(products[item.productId]) && Truthy(item.variantId)
    then VariantKey(item.productId, item.variantId.value)
    else ProductKey(item.productId)
  }

  /** The validated line built from an accepted item: price and name from the database. */
  function LineOf(p: Product, item: CartItem): Line
  {
    Line(item.productId, p.name, p.price, item.quantity, OrNull(item.variantId), OrNull(item.variantName))
  }

  /**
   * The checks on one item, in the routes' order: product exists, a variant is
   * chosen when the product has variants, that variant exists, enough stock and,
   * when `checkQuantity` (the payment route), a positive quantity.
   */
  function CheckItem(products: map<string, Product>, item: CartItem, checkQuantity: bool): Result<Line, CartError>
  {
    if item.productId !in products then Err(ProductNotFound(item.productId))
    else
      var p := products[item.productId];
      if HasVariants(p) then
        if !Truthy(item.variantId) then Err(VariantRequired(p.name))
        else match FindVariant(p.variants, item.variantId.value)
          case None => Err(VariantNotFound(p.name))
          case Some(v) =>
            if v.stock < item.quantity then Err(InsufficientStock(p.name, Some(v.name)))
            else if checkQuantity && item.quantity <= 0 then Err(InvalidQuantity(p.name))
            else Ok(LineOf(p, item))
      else if p.stock < item.quantity then Err(InsufficientStock(p.name, None))
      else if checkQuantity && item.quantity <= 0 then Err(InvalidQuantity(p.name))
      else Ok(LineOf(p, item))
  }

  /**
   * The validation loop: items in cart order, the first rejected item decides
   * the error; on success one line per item.
   */
  function Validate(products: map<string, Product>, cart: seq<CartItem>, checkQuantity: bool)
    : (r: Result<seq<Line>, CartError>)
    ensures r.Ok? ==> |r.value| == |cart|
    ensures r.Ok? ==> LinesResolved(products, r.value) && LinesFit(products, r.value)
    ensures r.Ok? ==> LinesInCatalog(products, r.value)
    decreases |cart|
  {
    if cart == [] then Ok([])
    else
      match Validate(products, cart[..|cart| - 1], checkQuantity)
      case Err(e) => Err(e)
      case Ok(lines) =>
        match CheckItem(products, cart[|cart| - 1], checkQuantity)
        case Err(e) => Err(e)
        case Ok(l) =>
          CheckedLine(products, cart[|cart| - 1], checkQuantity);
          Ok(lines + [l])
  }

  /** Σ price × quantity over the lines. */
  function Subtotal(lines: seq<Line>): int
    decreases |lines|
  {
    if lines == [] then 0
    else Subtotal(lines[..|lines| - 1]) + lines[|lines| - 1].price * lines[|lines| - 1].quantity
  }

  /** Reference value of a cart: Σ database price × requested quantity. */
  function CartValue(products: map<string, Product>, cart: seq<CartItem>): int
    decreases |cart|
  {
    if cart == [] then 0
    else
      var item := cart[|cart| - 1];
      CartValue(products, cart[..|cart| - 1])
      + (if item.productId in products then products[item.productId].price * item.quantity else 0)
  }

  // ---------------------------------------------------------------------------
  // Per-item checks

  /** An accepted item yields a line resolved in the store that fits its counter. */
  lemma CheckedLine(products: map<string, Product>, item: CartItem, checkQuantity: bool)
    requires CheckItem(products, item, checkQuantity).Ok?
    ensures var l := CheckItem(products, item, checkQuantity).value;
            && l == LineOf(products[item.productId], item)
            && LineKey(products, l) == ItemKey(products, item)
            && LineResolved(products, l)
            && l.quantity <= StockOf(products, LineKey(products, l))
  {
  }

  /**
   * An item is accepted exactly when its product exists, a variant of it is
   * named and found whenever it has variants, the quantity does not exceed the
   * counter's stock and, for the payment route, the quantity is positive; the
   * line then carries the database price, never the client's.
   */
  lemma CheckItemAccepts(products: map<string, Product>, item: CartItem, checkQuantity: bool)
    ensures CheckItem(products, item, checkQuantity).Ok? <==>
              && item.productId in products
              && (HasVariants(products[item.productId]) ==>
                    Truthy(item.variantId)
                    && FindVariant(products[item.productId].variants, item.variantId.value).Some?)
              && item.quantity <= StockOf(products, ItemKey(products, item))
              && (checkQuantity ==> item.quantity > 0)
    ensures CheckItem(products, item, checkQuantity).Ok? ==>
              CheckItem(products, item, checkQuantity).value.price == products[item.productId].price
  {
  }

  /**
   * The precedence of the checks: every error is reported only when all the
   * earlier checks passed, and insufficient stock is reported before a
   * non-positive quantity.
   */
  lemma CheckPrecedence(products: map<string, Product>, item: CartItem, checkQuantity: bool)
    ensures CheckItem(products, item, checkQuantity).Err?
              && CheckItem(products, item, checkQuantity).error.ProductNotFound?
            <==> item.productId !in products
    ensures CheckItem(products, item, checkQuantity).Err?
              && CheckItem(products, item, checkQuantity).error.VariantRequired?
            <==> item.productId in products && HasVariants(products[item.productId]) && !Truthy(item.variantId)
    ensures CheckItem(products, item, checkQuantity).Err?
              && CheckItem(products, item, checkQuantity).error.VariantNotFound?
            <==> item.productId in products && HasVariants(products[item.productId]) && Truthy(item.variantId)
                 && FindVariant(products[item.productId].variants, item.variantId.value).None?
    ensures CheckItem(products, item, checkQuantity).Err?
              && CheckItem(products, item, checkQuantity).error.InvalidQuantity?
            <==> CheckItem(products, item, false).Ok? && checkQuantity && item.quantity <= 0
    ensures CheckItem(products, item, checkQuantity).Err?
              && CheckItem(products, item, checkQuantity).error.InsufficientStock?
            ==> StockOf(products, ItemKey(products, item)) < item.quantity
  {
  }

  // ---------------------------------------------------------------------------
  // The whole cart

  /** The cart is accepted exactly when every item is, and its lines are the items' lines in cart order. */
  lemma {:induction false} ValidateAccepts(products: map<string, Product>, cart: seq<CartItem>, checkQuantity: bool)
    ensures Validate(products, cart, checkQuantity).Ok?
            <==> forall i :: 0 <= i < |cart| ==> CheckItem(products, cart[i], checkQuantity).Ok?
    ensures Validate(products, cart, checkQuantity).Ok? ==>
              forall i :: 0 <= i < |cart| ==>
                Validate(products, cart, checkQuantity).value[i] == CheckItem(products, cart[i], checkQuantity).value
    decreases |cart|
  {
    if cart != [] {
      var n := |cart| - 1;
      var front := cart[..n];
      ValidateAccepts(products, front, checkQuantity);
      assert forall i :: 0 <= i < n ==> front[i] == cart[i];
      if !(forall i :: 0 <= i < n ==> CheckItem(products, cart[i], checkQuantity).Ok?) {
        var i :| 0 <= i < n && !CheckItem(products, cart[i], checkQuantity).Ok?;
        assert !CheckItem(products, front[i], checkQuantity).Ok?;
      }
    }
  }

  /** The first rejected item, in cart order, decides the error. */
  lemma {:induction false} ValidateFirstError(products: map<string, Product>, cart: seq<CartItem>,
                                              checkQuantity: bool, i: nat)
    requires i < |cart| && CheckItem(products, cart[i], checkQuantity).Err?
    requires forall j :: 0 <= j < i ==> CheckItem(products, cart[j], checkQuantity).Ok?
    ensures Validate(products, cart, checkQuantity) == Err(CheckItem(products, cart[i], checkQuantity).error)
    decreases |cart|
  {
    var n := |cart| - 1;
    var front := cart[..n];
    if i == n {
      assert forall j :: 0 <= j < n ==> front[j] == cart[j];
      ValidateAccepts(products, front, checkQuantity);
    } else {
      assert front[i] == cart[i];
      assert forall j :: 0 <= j < i ==> front[j] == cart[j];
      ValidateFirstError(products, front, checkQuantity, i);
    }
  }

  /** Client-sent prices never influence validation, its lines or its total. */
  lemma {:induction false} ClientPriceIgnored(products: map<string, Product>, cart: seq<CartItem>,
                                              other: seq<CartItem>, checkQuantity: bool)
    requires |other| == |cart|
    requires forall i :: 0 <= i < |cart| ==> other[i] == cart[i].(clientPrice := other[i].clientPrice)
    ensures Validate(products, other, checkQuantity) == Validate(products, cart, checkQuantity)
    decreases |cart|
  {
    if cart != [] {
      var n := |cart| - 1;
      assert forall i :: 0 <= i < n ==> other[..n][i] == other[i] && cart[..n][i] == cart[i];
      ClientPriceIgnored(products, cart[..n], other[..n], checkQuantity);
      assert CheckItem(products, other[n], checkQuantity) == CheckItem(products, cart[n], checkQuantity);
    }
  }

  /** The validated subtotal is the cart's value at database prices. */
  lemma {:induction false} SubtotalIsCartValue(products: map<string, Product>, cart: seq<CartItem>, checkQuantity: bool)
    requires Validate(products, cart, checkQuantity).Ok?
    ensures Subtotal(Validate(products, cart, checkQuantity).value) == CartValue(products, cart)
    decreases |cart|
  {
    if cart != [] {
      var n := |cart| - 1;
      var lines := Validate(products, cart, checkQuantity).value;
      var front := Validate(products, cart[..n], checkQuantity).value;
      SubtotalIsCartValue(products, cart[..n], checkQuantity);
      assert lines[..n] == front;
    }
  }

  /**
   * Stock is checked against the stock before the order, per item, so a cart that
   * names the same counter twice can pass validation and then drive it negative.
   */
  lemma DuplicateItemsOversell()
    ensures var products := map["mug" := Product("Mug", 50000, 1, [])];
            var cart := [CartItem("mug", None, None, 1, None), CartItem("mug", None, None, 1, None)];
            && Validate(products, cart, true).Ok?
            && StockOf(ApplyLines(products, Validate(products, cart, true).value), ProductKey("mug")) == -1
  {
    var products := map["mug" := Product("Mug", 50000, 1, [])];
    var item := CartItem("mug", None, None, 1, None);
    var cart := [item, item];
    var line := LineOf(products["mug"], item);
    assert CheckItem(products, item, true) == Ok(line);
    assert cart[..1] == [item] && [item][..0] == [];
    assert Validate(products, [], true) == Ok([]);
    assert [] + [line] == [line];
    assert Validate(products, [item], true) == Ok([line]);
    assert [line] + [line] == [line, line];
    assert Validate(products, cart, true) == Ok([line, line]);
    var lines := [line, line];
    assert lines[..1] == [line] && [line][..0] == [];
    assert ApplyLines(products, []) == products;
    var once := ApplyLines(products, [line]);
    assert once == ApplyLine(products, line);
    assert once["mug"].stock == 0;
    assert ApplyLines(products, lines) == ApplyLine(once, line);
  }

  // ---------------------------------------------------------------------------
  // The loop as the routes run it

  lemma RejectedAt(products: map<string, Product>, items: seq<CartItem>, checkQuantity: bool, i: nat)
    requires i < |items| && Validate(products, items[..i], checkQuantity).Ok?
    requires CheckItem(products, items[i], checkQuantity).Err?
    ensures Validate(products, items, checkQuantity) == Err(CheckItem(products, items[i], checkQuantity).error)
  {
    ValidateAccepts(products, items[..i], checkQuantity);
    assert forall j :: 0 <= j < i ==> items[..i][j] == items[j];
    ValidateFirstError(products, items, checkQuantity, i);
  }

  /** Accepting item i after a valid prefix extends the lines and the subtotal by its line. */
  lemma AcceptedAt(products: map<string, Product>, items: seq<CartItem>, checkQuantity: bool, i: nat,
                   lines: seq<Line>, line: Line)
    requires i < |items| && Validate(products, items[..i], checkQuantity) == Ok(lines)
    requires CheckItem(products, items[i], checkQuantity) == Ok(line)
    ensures Validate(products, items[..i + 1], checkQuantity) == Ok(lines + [line])
    ensures Subtotal(lines + [line]) == Subtotal(lines) + line.price * line.quantity
  {
    assert items[..i + 1][..i] == items[..i];
    assert (lines + [line])[..|lines|] == lines;
  }

  /** The checks on one item, each failing with its own 400 answer. */
  method CheckCartItem(products: map<string, Product>, item: CartItem, checkQuantity: bool)
    returns (r: Result<Line, CartError>)
    ensures r == CheckItem(products, item, checkQuantity)
  {
    if item.productId !in products {
      return Err(ProductNotFound(item.productId));
    }
    var product := products[item.productId];
    if HasVariants(product) {
      if !Truthy(item.variantId) {
        return Err(VariantRequired(product.name));
      }
      var variant := FindVariant(product.variants, item.variantId.value);
      if variant.None? {
        return Err(VariantNotFound(product.name));
      }
      if variant.value.stock < item.quantity {
        return Err(InsufficientStock(product.name, Some(variant.value.name)));
      }
    } else if product.stock < item.quantity {
      return Err(InsufficientStock(product.name, None));
    }
    if checkQuantity && item.quantity <= 0 {
      return Err(InvalidQuantity(product.name));
    }
    r := Ok(LineOf(product, item));
  }

  /**
   * `for (const item of items)`: check each item, reject on the first failed
   * check, otherwise add `price * quantity` to the running total and push the line.
   */
  method ValidateItems(db: Db, items: seq<CartItem>, checkQuantity: bool)
    returns (outcome: Result<seq<Line>, CartError>, subtotal: int)
    ensures outcome == Validate(db.products, items, checkQuantity)
    ensures outcome.Ok? ==> subtotal == Subtotal(outcome.value)
  {
    var products := db.products;
    var lines: seq<Line> := [];
    subtotal := 0;
    var i := 0;
    while i < |items|
      invariant 0 <= i <= |items|
      invariant Validate(products, items[..i], checkQuantity) == Ok(lines)
      invariant subtotal == Subtotal(lines)
    {
      var checked := CheckCartItem(products, items[i], checkQuantity);
      if checked.Err? {
        outcome := Err(checked.error);
        RejectedAt(products, items, checkQuantity, i);
        return;
      }
      var line := checked.value;
      AcceptedAt(products, items, checkQuantity, i, lines, line);
      subtotal := subtotal + line.price * line.quantity;
      lines := lines + [line];
      i := i + 1;
    }
    assert items[..|items|] == items;
    outcome := Ok(lines);
  }
}
