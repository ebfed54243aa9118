/** The rows of the shop's database tables, as app.py and ai_agents.py read and
    write them, and a `Db` object that holds the tables in memory. A table is the
    sequence of its rows; a query's `.first()` is the first row that matches. */
module ShopTables {
  import opened Common

  datatype Product = Product(
    id: int, pid: string, title: string, description: string, category: string,
    price: real, stockS: int, stockM: int, stockL: int, stockXL: int)

  datatype CartRow = CartRow(id: int, userId: int, productId: int, size: string, quantity: int)

  datatype OrderRow = OrderRow(
    id: int, orderNumber: string, userId: int,
    totalAmount: real, discountAmount: real, finalAmount: real,
    paymentMethod: string, paymentStatus: string, orderType: string,
    /** the estimated delivery, as a number of days after the order was placed */
    estimatedDeliveryDays: Option<int>,
    storePickupSlot: Option<string>,
    status: string)

  datatype OrderItemRow = OrderItemRow(orderId: int, productId: int, size: string, quantity: int, price: real)

  datatype BankOffer = BankOffer(
    id: int, bankName: string, discountPercent: real, maxDiscount: real, minOrder: real,
    description: string, isActive: bool)

  datatype StoreRow = StoreRow(id: int, name: string, city: string)

  /** The fields of the signed-in user that the handlers read. */
  datatype User = User(id: int, city: string, nearestStoreId: int)

  function FindProduct(products: seq<Product>, id: int): (r: Option<Product>)
    ensures r.Some? ==> r.value in products && r.value.id == id
    ensures r.None? <==> forall p :: p in products ==> p.id != id
  {
    match FirstWhere(products, (p: Product) => p.id == id)
    case None => None
    case Some(i) => Some(products[i])
  }

  function FindOrder(orders: seq<OrderRow>, id: int): (r: Option<nat>)
    ensures r.Some? ==> r.value < |orders| && orders[r.value].id == id
    ensures r.None? <==> forall o :: o in orders ==> o.id != id
  {
    FirstWhere(orders, (o: OrderRow) => o.id == id)
  }

  /** The rows of one user's cart, in table order (`filter(CartItem.user_id == ...)`). */
  function UserLines(rows: seq<CartRow>, userId: int): (r: seq<CartRow>)
    ensures |r| <= |rows|
    ensures forall row :: row in r <==> row in rows && row.userId == userId
  {
    if rows == [] then []
    else if rows[0].userId == userId then [rows[0]] + UserLines(rows[1..], userId)
    else UserLines(rows[1..], userId)
  }

  /** The table's rows once every row of `userId` is deleted. */
  function OtherUsersLines(rows: seq<CartRow>, userId: int): (r: seq<CartRow>)
    ensures |r| <= |rows|
    ensures forall row :: row in r <==> row in rows && row.userId != userId
  {
    if rows == [] then []
    else if rows[0].userId != userId then [rows[0]] + OtherUsersLines(rows[1..], userId)
    else OtherUsersLines(rows[1..], userId)
  }

  predicate CartKeysBelow(rows: seq<CartRow>, next: int) {
    forall row :: row in rows ==> row.id < next
  }

  predicate OrderKeysBelow(orders: seq<OrderRow>, next: int) {
    forall o :: o in orders ==> o.id < next
  }

  predicate CartProductsExist(rows: seq<CartRow>, products: seq<Product>) {
    forall row :: row in rows ==> FindProduct(products, row.productId).Some?
  }

  /** The database, held in memory: one sequence of rows per table, and the next
      value of each auto-increment primary key. */
  class Db {
    var products: seq<Product>
    var cartItems: seq<CartRow>
    var orders: seq<OrderRow>
    var orderItems: seq<OrderItemRow>
    var offers: seq<BankOffer>
    var stores: seq<StoreRow>
    var nextCartItemId: int
    var nextOrderId: int

    /** Keys handed out so far lie below the counters, and every cart row refers to
        an existing product (the foreign key `cart_items.product_id`). */
    ghost predicate Valid()
      reads this
    {
      && CartKeysBelow(cartItems, nextCartItemId)
      && OrderKeysBelow(orders, nextOrderId)
      && CartProductsExist(cartItems, products)
    }

    constructor (products: seq<Product>, offers: seq<BankOffer>, stores: seq<StoreRow>)
      ensures Valid()
      ensures this.products == products && this.offers == offers && this.stores == stores
      ensures cartItems == [] && orders == [] && orderItems == []
    {
      this.products := products;
      this.offers := offers;
      this.stores := stores;
      cartItems := [];
      orders := [];
      orderItems := [];
      nextCartItemId := 1;
      nextOrderId := 1;
    }
  }
}
