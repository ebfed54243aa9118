/** The cart and checkout request handlers of backend/app.py, reduced to their effect
    on the tables. Authentication, HTTP plumbing and the database session are left
    out; a failing request is a response value (404 / 400) that changes nothing. */
module ShopApi {
  import opened Common
  import opened Text
  import opened ShopTables
  import opened Agents

  datatype ApiStatus = Ok | NotFound | BadRequest

  // ---------------------------------------------------------------------------
  // Cart lines and their keys

  /** A cart line is identified by who owns it, which product and which size. */
  datatype LineKey = LineKey(userId: int, productId: int, size: string)

  function KeyOf(row: CartRow): LineKey {
    LineKey(row.userId, row.productId, row.size)
  }

  /** No two lines of the table share a key. */
  predicate LinesUnique(rows: seq<CartRow>) {
    forall i, j :: 0 <= i < j < |rows| ==> KeyOf(rows[i]) != KeyOf(rows[j])
  }

  /** The total quantity the table holds for one key. */
  function QuantityOf(rows: seq<CartRow>, key: LineKey): int {
    if rows == [] then 0
    else (if KeyOf(rows[0]) == key then rows[0].quantity else 0) + QuantityOf(rows[1..], key)
  }

  function FindLine(rows: seq<CartRow>, key: LineKey): (r: Option<nat>)
    ensures r.Some? ==> r.value < |rows| && KeyOf(rows[r.value]) == key
    ensures r.None? ==> forall row :: row in rows ==> KeyOf(row) != key
  {
    FirstWhere(rows, (row: CartRow) => KeyOf(row) == key)
  }

  /** The cart table after `add_to_cart`: an existing line with the same key gains the
      quantity, otherwise one new line (with the next row id) is appended. */
  function MergeLine(rows: seq<CartRow>, key: LineKey, quantity: int, newId: int): seq<CartRow> {
    match FindLine(rows, key)
    case Some(i) => rows[i := rows[i].(quantity := rows[i].quantity + quantity)]
    case None => rows + [CartRow(newId, key.userId, key.productId, key.size, quantity)]
  }

  /** A key already in the table keeps the row count and changes only that row;
      otherwise the old rows stay in front of one new row with the next id. */
  lemma MergeLineShape(rows: seq<CartRow>, key: LineKey, quantity: int, newId: int)
    ensures var r := MergeLine(rows, key, quantity, newId);
      && (FindLine(rows, key).Some? ==>
            && |r| == |rows|
            && forall k :: 0 <= k < |rows| && KeyOf(rows[k]) != key ==> r[k] == rows[k])
      && (FindLine(rows, key).None? ==>
            && r[..|rows|] == rows && |r| == |rows| + 1
            && r[|rows|] == CartRow(newId, key.userId, key.productId, key.size, quantity))
  {
    var r := MergeLine(rows, key, quantity, newId);
    if FindLine(rows, key).None? {
      assert r[..|rows|] == rows;
    }
  }

  lemma {:induction false} QuantityOfAppend(rows: seq<CartRow>, x: CartRow, key: LineKey)
    ensures QuantityOf(rows + [x], key) == QuantityOf(rows, key) + (if KeyOf(x) == key then x.quantity else 0)
  {
    if rows != [] {
      assert (rows + [x])[1..] == rows[1..] + [x];
      QuantityOfAppend(rows[1..], x, key);
    }
  }

  lemma {:induction false} QuantityOfBump(rows: seq<CartRow>, i: nat, q: int, key: LineKey)
    requires i < |rows|
    ensures QuantityOf(rows[i := rows[i].(quantity := rows[i].quantity + q)], key)
         == QuantityOf(rows, key) + (if KeyOf(rows[i]) == key then q else 0)
  {
    var bumped := rows[i := rows[i].(quantity := rows[i].quantity + q)];
    if i == 0 {
      assert bumped[1..] == rows[1..];
    } else {
      assert bumped[1..] == rows[1..][i - 1 := rows[i].(quantity := rows[i].quantity + q)];
      QuantityOfBump(rows[1..], i - 1, q, key);
    }
  }

  /** Adding to the cart raises the quantity held under the added key by exactly the
      requested amount and leaves every other key's quantity as it was. */
  lemma MergeLineAddsQuantity(rows: seq<CartRow>, key: LineKey, quantity: int, newId: int, other: LineKey)
    ensures QuantityOf(MergeLine(rows, key, quantity, newId), other)
         == QuantityOf(rows, other) + (if other == key then quantity else 0)
  {
    match FindLine(rows, key)
    case Some(i) => QuantityOfBump(rows, i, quantity, other);
    case None => QuantityOfAppend(rows, CartRow(newId, key.userId, key.productId, key.size, quantity), other);
  }

  /** Adding to the cart never creates a second line for a key. */
  lemma MergeLineKeepsLinesUnique(rows: seq<CartRow>, key: LineKey, quantity: int, newId: int)
    requires LinesUnique(rows)
    ensures LinesUnique(MergeLine(rows, key, quantity, newId))
  {
    var r := MergeLine(rows, key, quantity, newId);
    match FindLine(rows, key)
    case Some(i) =>
      assert forall k :: 0 <= k < |rows| ==> KeyOf(r[k]) == KeyOf(rows[k]);
    case None =>
      assert forall k :: 0 <= k < |rows| ==> r[k] == rows[k] && rows[k] in rows;
  }

  /** Merging a line for an existing product keeps row ids below the counter (which
      moves on when a row is appended) and every row's product in the catalogue. */
  lemma MergeLineKeepsTables(rows: seq<CartRow>, products: seq<Product>, key: LineKey, quantity: int, next: int)
    requires CartKeysBelow(rows, next) && CartProductsExist(rows, products)
    requires FindProduct(products, key.productId).Some?
    ensures var r := MergeLine(rows, key, quantity, next);
      && CartKeysBelow(r, if FindLine(rows, key).Some? then next else next + 1)
      && CartProductsExist(r, products)
  {
    var r := MergeLine(rows, key, quantity, next);
    match FindLine(rows, key)
    case Some(i) =>
      forall row | row in r ensures row.id < next && FindProduct(products, row.productId).Some? {
        var k :| 0 <= k < |r| && r[k] == row;
        assert KeyOf(rows[k]) == KeyOf(row) && rows[k] in rows;
      }
    case None =>
  }

  /** `add_to_cart`: an unknown product is refused (404) with the cart untouched;
      otherwise the line is merged as `MergeLine` says. */
  method AddToCart(db: Db, userId: int, productId: int, size: string, quantity: int) returns (status: ApiStatus)
    requires db.Valid()
    modifies db`cartItems, db`nextCartItemId
    ensures db.Valid()
    ensures FindProduct(db.products, productId).None? ==>
      status == NotFound && db.cartItems == old(db.cartItems) && db.nextCartItemId == old(db.nextCartItemId)
    ensures FindProduct(db.products, productId).Some? ==>
      && status == Ok
      && db.cartItems == MergeLine(old(db.cartItems), LineKey(userId, productId, size), quantity, old(db.nextCartItemId))
  {
    if FindProduct(db.products, productId).None? {
      return NotFound;
    }
    MergeIntoCart(db, LineKey(userId, productId, size), quantity);
    status := Ok;
  }

  /** The merge itself, for a product the catalogue holds. */
  method MergeIntoCart(db: Db, key: LineKey, quantity: int)
    requires db.Valid() && FindProduct(db.products, key.productId).Some?
    modifies db`cartItems, db`nextCartItemId
    ensures db.Valid()
    ensures db.cartItems == MergeLine(old(db.cartItems), key, quantity, old(db.nextCartItemId))
  {
    MergeLineKeepsTables(db.cartItems, db.products, key, quantity, db.nextCartItemId);
    var rows, next := db.cartItems, db.nextCartItemId;
    var existing := FindLine(rows, key);
    if existing.Some? {
      var i := existing.value;
      rows := rows[i := rows[i].(quantity := rows[i].quantity + quantity)];
    } else {
      rows := rows + [CartRow(next, key.userId, key.productId, key.size, quantity)];
      next := next + 1;
    }
    assert rows == MergeLine(old(db.cartItems), key, quantity, old(db.nextCartItemId));
    db.cartItems, db.nextCartItemId := rows, next;
    assert CartKeysBelow(db.cartItems, db.nextCartItemId);
  }

  // ---------------------------------------------------------------------------
  // Removing a line

  /** The caller's own line with the given row id. */
  function FindOwnLine(rows: seq<CartRow>, itemId: int, userId: int): (r: Option<nat>)
    ensures r.Some? ==> r.value < |rows| && rows[r.value].id == itemId && rows[r.value].userId == userId
    ensures r.None? ==> forall row :: row in rows ==> !(row.id == itemId && row.userId == userId)
  {
    FirstWhere(rows, (row: CartRow) => row.id == itemId && row.userId == userId)
  }

  lemma {:induction false} UserLinesConcat(a: seq<CartRow>, b: seq<CartRow>, userId: int)
    ensures UserLines(a + b, userId) == UserLines(a, userId) + UserLines(b, userId)
  {
    if a == [] {
      assert a + b == b;
    } else {
      assert (a + b)[0] == a[0];
      assert (a + b)[1..] == a[1..] + b;
      UserLinesConcat(a[1..], b, userId);
    }
  }

  /** Deleting one user's line leaves every other user's cart exactly as it was. */
  lemma RemoveLineKeepsOtherCarts(rows: seq<CartRow>, i: nat, other: int)
    requires i < |rows| && rows[i].userId != other
    ensures UserLines(rows[..i] + rows[i + 1..], other) == UserLines(rows, other)
  {
    var pre, post := rows[..i], rows[i + 1..];
    var rest := [rows[i]] + post;
    assert rows == pre + rest;
    assert rest[1..] == post;
    assert UserLines(rest, other) == UserLines(post, other);
    UserLinesConcat(pre, rest, other);
    UserLinesConcat(pre, post, other);
  }

  /** `remove_from_cart`: deletes the line only when it is the caller's own; otherwise
      404 and nothing changes. */
  method RemoveFromCart(db: Db, userId: int, itemId: int) returns (status: ApiStatus)
    requires db.Valid()
    modifies db`cartItems
    ensures db.Valid()
    ensures FindOwnLine(old(db.cartItems), itemId, userId).None? ==>
      status == NotFound && db.cartItems == old(db.cartItems)
    ensures FindOwnLine(old(db.cartItems), itemId, userId).Some? ==>
      var i := FindOwnLine(old(db.cartItems), itemId, userId).value;
      status == Ok && db.cartItems == old(db.cartItems)[..i] + old(db.cartItems)[i + 1..]
    ensures forall other :: other != userId ==> UserLines(db.cartItems, other) == UserLines(old(db.cartItems), other)
  {
    var found := FindOwnLine(db.cartItems, itemId, userId);
    if found.None? {
      return NotFound;
    }
    var i := found.value;
    db.cartItems := db.cartItems[..i] + db.cartItems[i + 1..];
    forall other | other != userId
      ensures UserLines(db.cartItems, other) == UserLines(old(db.cartItems), other)
    {
      RemoveLineKeepsOtherCarts(old(db.cartItems), i, other);
    }
    status := Ok;
  }

  // ---------------------------------------------------------------------------
  // Reading the cart

  datatype CartLineView = CartLineView(
    id: int, productId: int, pid: string, title: string, price: real, category: string,
    size: string, quantity: int, subtotal: real)

  datatype CartView = CartView(items: seq<CartLineView>, total: real, itemsCount: nat)

  /** The unit price of a line's product. */
  function LinePrice(products: seq<Product>, row: CartRow): real {
    match FindProduct(products, row.productId)
    case None => 0.0
    case Some(p) => p.price
  }

  /** `sum(item.product.price * item.quantity for item in items)`. */
  function CartTotal(products: seq<Product>, rows: seq<CartRow>): real {
    if rows == [] then 0.0
    else CartTotal(products, rows[..|rows| - 1]) + LinePrice(products, rows[|rows| - 1]) * rows[|rows| - 1].quantity as real
  }

  /** How `get_cart` shows one line: its product's fields and price × quantity (a
      line whose product is missing, which the foreign key rules out, shows as free). */
  function LineView(products: seq<Product>, row: CartRow): (v: CartLineView)
    ensures v.id == row.id && v.size == row.size && v.quantity == row.quantity
    ensures v.subtotal == LinePrice(products, row) * row.quantity as real
    ensures FindProduct(products, row.productId).Some? ==>
      var p := FindProduct(products, row.productId).value;
      v.productId == p.id == row.productId && v.pid == p.pid && v.title == p.title
      && v.price == p.price && v.category == p.category
  {
    match FindProduct(products, row.productId)
    case None => CartLineView(row.id, row.productId, "", "", 0.0, "", row.size, row.quantity, 0.0)
    case Some(p) =>
      CartLineView(row.id, p.id, p.pid, p.title, p.price, p.category, row.size, row.quantity,
                   p.price * row.quantity as real)
  }

  /** The line views of the rows, in order. */
  function LineViews(products: seq<Product>, rows: seq<CartRow>): (vs: seq<CartLineView>)
    ensures |vs| == |rows|
    ensures forall k :: 0 <= k < |rows| ==> vs[k] == LineView(products, rows[k])
  {
    if rows == [] then [] else LineViews(products, rows[..|rows| - 1]) + [LineView(products, rows[|rows| - 1])]
  }

  function SumSubtotals(items: seq<CartLineView>): real {
    if items == [] then 0.0 else SumSubtotals(items[..|items| - 1]) + items[|items| - 1].subtotal
  }

  /** The cart total is the sum of the subtotals shown for its lines. */
  lemma {:induction false} SubtotalsSumToCartTotal(products: seq<Product>, rows: seq<CartRow>)
    ensures SumSubtotals(LineViews(products, rows)) == CartTotal(products, rows)
  {
    if rows != [] {
      var init := rows[..|rows| - 1];
      var vs := LineViews(products, rows);
      assert vs[..|vs| - 1] == LineViews(products, init);
      SubtotalsSumToCartTotal(products, init);
    }
  }

  /** `get_cart`: one view per line of the caller's cart, in table order; the total is
      the sum of price × quantity over the lines, which is the sum of the subtotals
      shown, and the item count is the number of lines. */
  method GetCart(db: Db, userId: int) returns (view: CartView)
    ensures view.items == LineViews(db.products, UserLines(db.cartItems, userId))
    ensures view.itemsCount == |view.items| == |UserLines(db.cartItems, userId)|
    ensures view.total == CartTotal(db.products, UserLines(db.cartItems, userId))
    ensures view.total == SumSubtotals(view.items)
  {
    var lines := UserLines(db.cartItems, userId);
    var items: seq<CartLineView> := [];
    var total := 0.0;
    var i := 0;
    while i < |lines|
      invariant 0 <= i <= |lines|
      invariant items == LineViews(db.products, lines[..i])
      invariant total == CartTotal(db.products, lines[..i])
    {
      var row := lines[i];
      assert lines[..i + 1][..i] == lines[..i];
      var line := LineView(db.products, row);
      items := items + [line];
      total := total + line.subtotal;
      i := i + 1;
    }
    assert lines[..i] == lines;
    SubtotalsSumToCartTotal(db.products, lines);
    view := CartView(items, total, |items|);
  }

  // ---------------------------------------------------------------------------
  // Stock bookkeeping at checkout

  function AtLeastZero(n: int): (r: int)
    ensures r >= 0 && r >= n && (n >= 0 ==> r == n)
  {
    if n < 0 then 0 else n
  }

  /** `setattr(product, f"stock_{size.lower()}", max(0, current - quantity))`: one of
      the four stock columns drops by the quantity, clamped at zero; a size that names
      no column leaves the row as it is. */
  function DecrementStock(p: Product, size: string, quantity: int): (q: Product)
    ensures Lower(size) == "s" ==> q == p.(stockS := AtLeastZero(p.stockS - quantity))
    ensures Lower(size) == "m" ==> q == p.(stockM := AtLeastZero(p.stockM - quantity))
    ensures Lower(size) == "l" ==> q == p.(stockL := AtLeastZero(p.stockL - quantity))
    ensures Lower(size) == "xl" ==> q == p.(stockXL := AtLeastZero(p.stockXL - quantity))
    ensures Lower(size) !in {"s", "m", "l", "xl"} ==> q == p
  {
    var column := Lower(size);
    if column == "s" then p.(stockS := AtLeastZero(p.stockS - quantity))
    else if column == "m" then p.(stockM := AtLeastZero(p.stockM - quantity))
    else if column == "l" then p.(stockL := AtLeastZero(p.stockL - quantity))
    else if column == "xl" then p.(stockXL := AtLeastZero(p.stockXL - quantity))
    else p
  }

  function ProductIndex(products: seq<Product>, id: int): Option<nat> {
    FirstWhere(products, (p: Product) => p.id == id)
  }

  /** The products table after one cart line's stock is taken. */
  function ApplyLine(products: seq<Product>, row: CartRow): seq<Product> {
    match ProductIndex(products, row.productId)
    case None => products
    case Some(i) => products[i := DecrementStock(products[i], row.size, row.quantity)]
  }

  /** The products table after the lines' stock is taken, first line first. */
  function ApplyLines(products: seq<Product>, rows: seq<CartRow>): seq<Product> {
    if rows == [] then products
    else ApplyLine(ApplyLines(products, rows[..|rows| - 1]), rows[|rows| - 1])
  }

  /** Two tables that agree on everything but stock levels. */
  predicate SameCatalog(a: seq<Product>, b: seq<Product>) {
    && |a| == |b|
    && forall i :: 0 <= i < |a| ==>
         a[i].id == b[i].id && a[i].pid == b[i].pid && a[i].title == b[i].title
         && a[i].description == b[i].description && a[i].category == b[i].category && a[i].price == b[i].price
  }

  predicate StockNonNegative(products: seq<Product>) {
    forall p :: p in products ==> p.stockS >= 0 && p.stockM >= 0 && p.stockL >= 0 && p.stockXL >= 0
  }

  /** Taking stock for any lines changes stock levels only, and never drives a
      non-negative stock level below zero. */
  lemma {:induction false} ApplyLinesKeepsCatalog(products: seq<Product>, rows: seq<CartRow>)
    ensures SameCatalog(products, ApplyLines(products, rows))
    ensures StockNonNegative(products) ==> StockNonNegative(ApplyLines(products, rows))
  {
    if rows != [] {
      var mid := ApplyLines(products, rows[..|rows| - 1]);
      ApplyLinesKeepsCatalog(products, rows[..|rows| - 1]);
      ApplyLineKeepsCatalog(mid, rows[|rows| - 1]);
      assert ApplyLines(products, rows) == ApplyLine(mid, rows[|rows| - 1]);
    }
  }

  /** Taking one line's stock changes one stock level at most, never below zero. */
  lemma ApplyLineKeepsCatalog(products: seq<Product>, row: CartRow)
    ensures SameCatalog(products, ApplyLine(products, row))
    ensures StockNonNegative(products) ==> StockNonNegative(ApplyLine(products, row))
  {
    match ProductIndex(products, row.productId)
    case None =>
    case Some(i) =>
      var q := DecrementStock(products[i], row.size, row.quantity);
      assert ApplyLine(products, row) == products[i := q];
      if StockNonNegative(products) {
        assert products[i] in products;
        forall p | p in products[i := q]
          ensures p.stockS >= 0 && p.stockM >= 0 && p.stockL >= 0 && p.stockXL >= 0
        {
          var j :| 0 <= j < |products| && products[i := q][j] == p;
          if j != i {
            assert products[j] in products;
          }
        }
      }
  }

  lemma {:induction false} FirstWhereSameIds(a: seq<Product>, b: seq<Product>, id: int)
    requires |a| == |b| && forall i :: 0 <= i < |a| ==> a[i].id == b[i].id
    ensures ProductIndex(a, id) == ProductIndex(b, id)
  {
    if a != [] {
      FirstWhereSameIds(a[1..], b[1..], id);
    }
  }

  /** Tables with the same catalog find the same product, at the same price. */
  lemma SameCatalogFindsSame(a: seq<Product>, b: seq<Product>, id: int)
    requires SameCatalog(a, b)
    ensures FindProduct(a, id).Some? <==> FindProduct(b, id).Some?
    ensures FindProduct(a, id).Some? ==> FindProduct(a, id).value.price == FindProduct(b, id).value.price
  {
    FirstWhereSameIds(a, b, id);
  }

  // ---------------------------------------------------------------------------
  // Checkout

  datatype OrderSummary = OrderSummary(
    id: int, orderNumber: string, total: real, discount: real, status: string, paymentStatus: string)

  datatype CheckoutResponse =
    | CartIsEmpty
    | OrderPlaced(order: OrderSummary, payment: PaymentOutcome, pricing: PriceResult,
                  deliveryDays: Option<int>, storeSlots: Option<seq<StoreSlot>>)
    | PaymentFailed(payment: PaymentOutcome, pricing: PriceResult)

  /** An order is created only for these gateway outcomes. */
  predicate CreatesOrder(payment: PaymentOutcome) {
    payment.Status() == "success" || payment.Status() == "store_pickup"
  }

  /** The order row `checkout` inserts. */
  function NewOrder(id: int, orderNumberDraw: nat, user: User, total: real, pricing: PriceResult,
                    payment: PaymentOutcome, orderType: string, paymentMethod: string): OrderRow
  {
    OrderRow(id, "ORD" + NatToString(orderNumberDraw), user.id, total, pricing.discountAmount, pricing.finalPrice,
      paymentMethod, if payment.Status() == "success" then "paid" else "pending", orderType,
      if orderType == "online" then Some(DeliveryDays(user.city)) else None, None, "confirmed")
  }

  /** The order-item rows for the lines, priced at their products' prices. */
  function OrderItemsFor(orderId: int, products: seq<Product>, rows: seq<CartRow>): (r: seq<OrderItemRow>)
    ensures |r| == |rows|
  {
    if rows == [] then []
    else
      var row := rows[|rows| - 1];
      OrderItemsFor(orderId, products, rows[..|rows| - 1])
        + [OrderItemRow(orderId, row.productId, row.size, row.quantity, LinePrice(products, row))]
  }

  /** Each order item is its cart line, in order: the order id with the line's product,
      size and quantity, priced at its product's price. */
  lemma {:induction false} OrderItemsForRows(orderId: int, products: seq<Product>, rows: seq<CartRow>)
    ensures var r := OrderItemsFor(orderId, products, rows);
      forall k :: 0 <= k < |rows| ==>
        r[k] == OrderItemRow(orderId, rows[k].productId, rows[k].size, rows[k].quantity, LinePrice(products, rows[k]))
  {
    if rows != [] {
      var init := rows[..|rows| - 1];
      OrderItemsForRows(orderId, products, init);
      forall k | 0 <= k < |init| ensures init[k] == rows[k] {
      }
    }
  }

  /** Taking stock changes no product's price and no product's existence. */
  lemma ApplyLinesKeepsLinePrice(products: seq<Product>, rows: seq<CartRow>, row: CartRow)
    ensures LinePrice(ApplyLines(products, rows), row) == LinePrice(products, row)
    ensures FindProduct(ApplyLines(products, rows), row.productId).Some? <==> FindProduct(products, row.productId).Some?
  {
    ApplyLinesKeepsCatalog(products, rows);
    SameCatalogFindsSame(products, ApplyLines(products, rows), row.productId);
  }

  /** Cart lines whose products exist still find them once stock is taken. */
  lemma ApplyLinesKeepsForeignKeys(products: seq<Product>, lines: seq<CartRow>, rows: seq<CartRow>)
    requires forall row :: row in rows ==> FindProduct(products, row.productId).Some?
    ensures forall row :: row in rows ==> FindProduct(ApplyLines(products, lines), row.productId).Some?
  {
    forall row | row in rows
      ensures FindProduct(ApplyLines(products, lines), row.productId).Some?
    {
      ApplyLinesKeepsLinePrice(products, lines, row);
    }
  }

  /** The loop of `checkout` over the cart lines: record each line as an order item
      priced at its product's price, then take its stock. */
  method RecordLines(db: Db, orderId: int, lines: seq<CartRow>)
    modifies db`orderItems, db`products
    ensures db.orderItems == old(db.orderItems) + OrderItemsFor(orderId, old(db.products), lines)
    ensures db.products == ApplyLines(old(db.products), lines)
  {
    var i := 0;
    while i < |lines|
      invariant 0 <= i <= |lines|
      invariant db.orderItems == old(db.orderItems) + OrderItemsFor(orderId, old(db.products), lines[..i])
      invariant db.products == ApplyLines(old(db.products), lines[..i])
    {
      var row := lines[i];
      ApplyLinesKeepsLinePrice(old(db.products), lines[..i], row);
      assert lines[..i + 1][..i] == lines[..i];
      db.orderItems := db.orderItems + [OrderItemRow(orderId, row.productId, row.size, row.quantity, LinePrice(db.products, row))];
      db.products := ApplyLine(db.products, row);
      i := i + 1;
    }
    assert lines[..i] == lines;
  }

  /** The tables a successful checkout leaves behind keep the database's invariants. */
  lemma PlaceOrderKeepsTablesValid(products: seq<Product>, cart: seq<CartRow>, nextCartItemId: int,
                                   orders: seq<OrderRow>, nextOrderId: int, userId: int, order: OrderRow)
    requires CartKeysBelow(cart, nextCartItemId)
    requires OrderKeysBelow(orders, nextOrderId) && CartProductsExist(cart, products)
    requires order.id == nextOrderId
    ensures CartKeysBelow(OtherUsersLines(cart, userId), nextCartItemId)
    ensures OrderKeysBelow(orders + [order], nextOrderId + 1)
    ensures CartProductsExist(OtherUsersLines(cart, userId), ApplyLines(products, UserLines(cart, userId)))
  {
    ApplyLinesKeepsForeignKeys(products, UserLines(cart, userId), OtherUsersLines(cart, userId));
  }

  /** The table changes of a successful `checkout`: the order row is inserted, its
      items recorded, their stock taken and the caller's cart emptied. */
  method PlaceOrder(db: Db, userId: int, order: OrderRow)
    requires db.Valid() && order.id == db.nextOrderId
    modifies db`cartItems, db`orders, db`orderItems, db`products, db`nextOrderId
    ensures db.Valid()
    ensures var lines := UserLines(old(db.cartItems), userId);
      && db.orders == old(db.orders) + [order]
      && db.nextOrderId == old(db.nextOrderId) + 1
      && db.orderItems == old(db.orderItems) + OrderItemsFor(order.id, old(db.products), lines)
      && db.products == ApplyLines(old(db.products), lines)
      && db.cartItems == OtherUsersLines(old(db.cartItems), userId)
  {
    var lines := UserLines(db.cartItems, userId);
    PlaceOrderKeepsTablesValid(db.products, db.cartItems, db.nextCartItemId, db.orders, db.nextOrderId, userId, order);
    RecordLines(db, order.id, lines);
    db.orders, db.nextOrderId, db.cartItems := db.orders + [order], db.nextOrderId + 1, OtherUsersLines(db.cartItems, userId);
    // The table invariants, restated on the new tables.
    assert db.nextCartItemId == old(db.nextCartItemId);
    assert CartKeysBelow(db.cartItems, db.nextCartItemId);
  }

  /** A payment through a fresh `PaymentAgent`, which has seen no attempt yet, is
      always decided as attempt 1. */
  method FirstPayment(userId: int, orderType: string, paymentMethod: string, amount: real,
                      minute: string, succeeds: bool, transactionDraw: int) returns (payment: PaymentOutcome)
    requires 100000 <= transactionDraw <= 999999
    ensures payment == PaymentDecision(orderType, paymentMethod, amount, 1, succeeds, transactionDraw)
  {
    var agent := new PaymentAgent();
    payment := agent.InitiatePayment(userId, orderType, paymentMethod, amount, minute, succeeds, transactionDraw);
  }

  /** `checkout`: an empty cart is refused (400) and nothing changes. Otherwise the
      total is priced through `CalculateFinalPrice` and paid through a fresh
      `PaymentAgent`, so this is always attempt 1. An order is created exactly when the
      gateway answers "success" or "store_pickup"; it is "paid" exactly on "success";
      its amounts come from the price calculation; every line's stock is taken; the
      caller's cart is emptied and no other cart changes. Online orders get a delivery
      estimate and store orders the pickup slots, never both. When the payment fails,
      no table changes. */
  method Checkout(db: Db, user: User, orderType: string, paymentMethod: string, offerId: Option<int>,
                  minute: string, succeeds: bool, transactionDraw: int, orderNumberDraw: nat,
                  upcoming: seq<SlotDate>) returns (r: CheckoutResponse)
    requires db.Valid()
    requires 100000 <= transactionDraw <= 999999 && 100000 <= orderNumberDraw <= 999999
    requires |upcoming| == 3
    modifies db`cartItems, db`orders, db`orderItems, db`products, db`nextOrderId
    ensures db.Valid()
    ensures var lines := UserLines(old(db.cartItems), user.id);
      lines == [] ==> r.CartIsEmpty? && unchanged(db)
    ensures var lines := UserLines(old(db.cartItems), user.id);
      var total := CartTotal(old(db.products), lines);
      var pricing := CalculateFinalPrice(db.offers, total, offerId);
      var payment := PaymentDecision(orderType, paymentMethod, pricing.finalPrice, 1, succeeds, transactionDraw);
      lines != [] ==>
        && (r.OrderPlaced? <==> CreatesOrder(payment))
        && (r.PaymentFailed? <==> !CreatesOrder(payment))
        && (r.PaymentFailed? ==> r == PaymentFailed(payment, pricing) && unchanged(db))
        && (r.PaymentFailed? ==> r.payment.CanRetry() && !r.payment.RedirectToStore())
        && (r.OrderPlaced? ==>
             var order := NewOrder(old(db.nextOrderId), orderNumberDraw, user, total, pricing, payment, orderType, paymentMethod);
             && r.payment == payment && r.pricing == pricing
             && db.orders == old(db.orders) + [order]
             && db.nextOrderId == old(db.nextOrderId) + 1
             && r.order == OrderSummary(order.id, order.orderNumber, order.finalAmount, order.discountAmount,
                                        order.status, order.paymentStatus)
             && (order.paymentStatus == "paid" <==> payment.Status() == "success")
             && db.orderItems == old(db.orderItems) + OrderItemsFor(order.id, old(db.products), lines)
             && db.products == ApplyLines(old(db.products), lines)
             && db.cartItems == OtherUsersLines(old(db.cartItems), user.id)
             && (r.deliveryDays.Some? <==> orderType == "online")
             && (r.storeSlots.Some? <==> orderType != "online"))
  {
    var lines := UserLines(db.cartItems, user.id);
    if lines == [] {
      return CartIsEmpty;
    }
    var total := CartTotal(db.products, lines);
    var pricing := CalculateFinalPrice(db.offers, total, offerId);
    var payment := FirstPayment(user.id, orderType, paymentMethod, pricing.finalPrice, minute, succeeds, transactionDraw);
    if !CreatesOrder(payment) {
      return PaymentFailed(payment, pricing);
    }
    var order := NewOrder(db.nextOrderId, orderNumberDraw, user, total, pricing, payment, orderType, paymentMethod);
    PlaceOrder(db, user.id, order);
    var summary := OrderSummary(order.id, order.orderNumber, order.finalAmount, order.discountAmount,
                                order.status, order.paymentStatus);
    var deliveryDays: Option<int>, storeSlots: Option<seq<StoreSlot>> := None, None;
    if orderType == "online" {
      deliveryDays := Some(DeliveryDays(user.city));
    } else {
      var slots := GetStoreSlots(db.stores, user.nearestStoreId, upcoming);
      storeSlots := Some(slots);
    }
    r := OrderPlaced(summary, payment, pricing, deliveryDays, storeSlots);
  }

  // ---------------------------------------------------------------------------
  // Retrying a payment and confirming a pickup slot

  datatype RetryResponse = RetryOrderNotFound | RetryResult(success: bool, payment: PaymentOutcome)

  /** The caller's own order with the given id. */
  function FindOwnOrder(orders: seq<OrderRow>, orderId: int, userId: int): (r: Option<nat>)
    ensures r.Some? ==> r.value < |orders| && orders[r.value].id == orderId && orders[r.value].userId == userId
    ensures r.None? ==> forall o :: o in orders ==> !(o.id == orderId && o.userId == userId)
  {
    FirstWhere(orders, (o: OrderRow) => o.id == orderId && o.userId == userId)
  }

  /** `retry_payment`: an unknown or foreign order is refused (404). Otherwise a fresh
      gateway is asked again for the order's type and final amount; `success` is exactly
      the gateway saying "success", and only then is the order marked paid with the new
      method. A store order can therefore never be paid by a retry. */
  method RetryPayment(db: Db, userId: int, orderId: int, paymentMethod: string,
                      minute: string, succeeds: bool, transactionDraw: int) returns (r: RetryResponse)
    requires db.Valid()
    requires 100000 <= transactionDraw <= 999999
    modifies db`orders
    ensures db.Valid()
    ensures FindOwnOrder(old(db.orders), orderId, userId).None? ==>
      r.RetryOrderNotFound? && db.orders == old(db.orders)
    ensures FindOwnOrder(old(db.orders), orderId, userId).Some? ==>
      var i := FindOwnOrder(old(db.orders), orderId, userId).value;
      var o := old(db.orders)[i];
      var payment := PaymentDecision(o.orderType, paymentMethod, o.finalAmount, 1, succeeds, transactionDraw);
      && r == RetryResult(payment.Status() == "success", payment)
      && (r.success <==> o.orderType != "store" && succeeds)
      && db.orders == if r.success then old(db.orders)[i := o.(paymentStatus := "paid", paymentMethod := paymentMethod)]
                      else old(db.orders)
  {
    var found := FindOwnOrder(db.orders, orderId, userId);
    if found.None? {
      return RetryOrderNotFound;
    }
    var i := found.value;
    var o := db.orders[i];
    var agent := new PaymentAgent();
    var payment := agent.InitiatePayment(userId, o.orderType, paymentMethod, o.finalAmount, minute, succeeds, transactionDraw);
    if payment.Status() == "success" {
      db.orders := db.orders[i := o.(paymentStatus := "paid", paymentMethod := paymentMethod)];
    }
    r := RetryResult(payment.Status() == "success", payment);
  }

  /** `confirm_pickup_slot`: hands the order to the fulfilment agent as a pickup. The
      handler does not check that the order belongs to the caller. */
  method ConfirmPickupSlot(db: Db, orderId: int, slotId: string) returns (r: FulfillmentResult)
    requires db.Valid()
    modifies db`orders
    ensures db.Valid()
    ensures FindOrder(old(db.orders), orderId).None? ==> r.OrderNotFound? && db.orders == old(db.orders)
    ensures FindOrder(old(db.orders), orderId).Some? ==>
      var i := FindOrder(old(db.orders), orderId).value;
      && r == PickupConfirmed(Some(slotId))
      && db.orders == old(db.orders)[i := old(db.orders)[i].(storePickupSlot := Some(slotId), status := "ready_for_pickup")]
  {
    r := ConfirmFulfillment(db, orderId, "pickup", Some(slotId));
  }
}
