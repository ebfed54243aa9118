/** The back end's decision-making agents (backend/ai_agents.py): stock lookup,
    bank-offer pricing, the simulated payment gateway, store-pickup slots and order
    fulfilment, and shipment tracking. Database queries become parameters holding the
    table's rows; the clock and the random draws become parameters too. */
module Agents {
  import opened Common
  import opened Text
  import opened ShopTables

  // ---------------------------------------------------------------------------
  // InventoryAgent

  datatype StockLevels = StockLevels(s: int, m: int, l: int, xl: int)

  datatype InventoryEntry = InventoryEntry(
    pid: string, title: string, category: string, price: real,
    stock: StockLevels, totalStock: int, inStock: bool)

  datatype InventoryReport = InventoryReport(category: string, totalProducts: nat, inventory: seq<InventoryEntry>)

  /** `if category:` filters by category only when one was given and is non-empty. */
  predicate Selects(category: Option<string>, p: Product) {
    category.None? || category.value == "" || p.category == category.value
  }

  /** The rows the inventory query returns, in table order. */
  function SelectedProducts(products: seq<Product>, category: Option<string>): (r: seq<Product>)
    ensures |r| <= |products|
    ensures forall p :: p in r <==> p in products && Selects(category, p)
  {
    if products == [] then []
    else if Selects(category, products[0]) then [products[0]] + SelectedProducts(products[1..], category)
    else SelectedProducts(products[1..], category)
  }

  /** One inventory line per selected product, with its four stock levels, their sum,
      and "In Stock" exactly when that sum is positive. */
  method GetInventory(products: seq<Product>, category: Option<string>) returns (report: InventoryReport)
    ensures report.category == if category.Some? && category.value != "" then category.value else "all"
    ensures report.totalProducts == |report.inventory| == |SelectedProducts(products, category)|
    ensures forall k :: 0 <= k < |report.inventory| ==>
      var p := SelectedProducts(products, category)[k];
      var e := report.inventory[k];
      && e.pid == p.pid && e.title == p.title && e.category == p.category && e.price == p.price
      && e.stock == StockLevels(p.stockS, p.stockM, p.stockL, p.stockXL)
      && e.totalStock == p.stockS + p.stockM + p.stockL + p.stockXL
      && (e.inStock <==> e.totalStock > 0)
  {
    var selected := SelectedProducts(products, category);
    var inventory: seq<InventoryEntry> := [];
    var i := 0;
    while i < |selected|
      invariant 0 <= i <= |selected|
      invariant |inventory| == i
      invariant forall k :: 0 <= k < i ==>
        var p := selected[k];
        var e := inventory[k];
        && e.pid == p.pid && e.title == p.title && e.category == p.category && e.price == p.price
        && e.stock == StockLevels(p.stockS, p.stockM, p.stockL, p.stockXL)
        && e.totalStock == p.stockS + p.stockM + p.stockL + p.stockXL
        && (e.inStock <==> e.totalStock > 0)
    {
      var p := selected[i];
      var total := p.stockS + p.stockM + p.stockL + p.stockXL;
      inventory := inventory + [InventoryEntry(p.pid, p.title, p.category, p.price,
        StockLevels(p.stockS, p.stockM, p.stockL, p.stockXL), total, total > 0)];
      i := i + 1;
    }
    var heading := if category.Some? && category.value != "" then category.value else "all";
    report := InventoryReport(heading, |inventory|, inventory);
  }

  datatype StockCheck = ProductNotFound | StockInfo(available: bool, quantity: int)

  /** The stock column `size_map.get(size.upper(), "stock_m")` names: S, L and XL in any
      case select their own column, every other size falls back to M. */
  function StockForSize(p: Product, size: string): (q: int)
    ensures Upper(size) == "S" ==> q == p.stockS
    ensures Upper(size) == "L" ==> q == p.stockL
    ensures Upper(size) == "XL" ==> q == p.stockXL
    ensures Upper(size) != "S" && Upper(size) != "L" && Upper(size) != "XL" ==> q == p.stockM
  {
    var key := Upper(size);
    if key == "S" then p.stockS
    else if key == "L" then p.stockL
    else if key == "XL" then p.stockXL
    else p.stockM
  }

  /** `check_stock`: a missing product is reported as such; otherwise the size's
      quantity, available exactly when positive. */
  function CheckStock(products: seq<Product>, productId: int, size: string): (r: StockCheck)
    ensures r.ProductNotFound? <==> FindProduct(products, productId).None?
    ensures r.StockInfo? ==>
      && r.quantity == StockForSize(FindProduct(products, productId).value, size)
      && (r.available <==> r.quantity > 0)
  {
    match FindProduct(products, productId)
    case None => ProductNotFound
    case Some(p) =>
      var q := StockForSize(p, size);
      StockInfo(q > 0, q)
  }

  // ---------------------------------------------------------------------------
  // LoyaltyOffersAgent

  /** `get_available_offers`: the active offers, in table order. */
  function AvailableOffers(offers: seq<BankOffer>): (r: seq<BankOffer>)
    ensures |r| <= |offers|
    ensures forall o :: o in r <==> o in offers && o.isActive
  {
    if offers == [] then []
    else if offers[0].isActive then [offers[0]] + AvailableOffers(offers[1..])
    else AvailableOffers(offers[1..])
  }

  function FindOffer(offers: seq<BankOffer>, id: int): (r: Option<BankOffer>)
    ensures r.Some? ==> r.value in offers && r.value.id == id
    ensures r.None? <==> forall o :: o in offers ==> o.id != id
  {
    match FirstWhere(offers, (o: BankOffer) => o.id == id)
    case None => None
    case Some(i) => Some(offers[i])
  }

  datatype AppliedOffer = AppliedOffer(bankName: string, discountPercent: real, saved: real)

  datatype PriceResult = PriceResult(
    originalTotal: real, discountAmount: real, finalPrice: real, appliedOffer: Option<AppliedOffer>)

  /** The offer that `calculate_final_price` applies: an id was given (an id of 0 is
      falsy and counts as none), some offer row has it (active or not), and the cart
      total reaches that offer's minimum order. */
  function ApplicableOffer(offers: seq<BankOffer>, cartTotal: real, selectedOfferId: Option<int>): (r: Option<BankOffer>)
    ensures r.Some? <==>
      && selectedOfferId.Some? && selectedOfferId.value != 0
      && FindOffer(offers, selectedOfferId.value).Some?
      && cartTotal >= FindOffer(offers, selectedOfferId.value).value.minOrder
    ensures r.Some? ==> r == FindOffer(offers, selectedOfferId.value)
  {
    if selectedOfferId.None? || selectedOfferId.value == 0 then None
    else match FindOffer(offers, selectedOfferId.value)
      case None => None
      case Some(o) => if cartTotal >= o.minOrder then Some(o) else None
  }

  /** `calculate_final_price`: the discount is the offer's capped percentage when the
      offer applies and 0 otherwise; the savings reported equal the discount, and the
      discount and the final price always add up to the original total. */
  function CalculateFinalPrice(offers: seq<BankOffer>, cartTotal: real, selectedOfferId: Option<int>): (r: PriceResult)
    ensures r.originalTotal == cartTotal
    ensures r.discountAmount + r.finalPrice == cartTotal
    ensures r.appliedOffer.Some? <==> ApplicableOffer(offers, cartTotal, selectedOfferId).Some?
    ensures r.appliedOffer.None? ==> r.discountAmount == 0.0 && r.finalPrice == cartTotal
    ensures r.appliedOffer.Some? ==>
      var o := ApplicableOffer(offers, cartTotal, selectedOfferId).value;
      && r.discountAmount == CappedDiscount(cartTotal, o.discountPercent, o.maxDiscount)
      && r.appliedOffer.value == AppliedOffer(o.bankName, o.discountPercent, r.discountAmount)
  {
    match ApplicableOffer(offers, cartTotal, selectedOfferId)
    case None => PriceResult(cartTotal, 0.0, cartTotal, None)
    case Some(o) =>
      var discount := CappedDiscount(cartTotal, o.discountPercent, o.maxDiscount);
      PriceResult(cartTotal, discount, cartTotal - discount, Some(AppliedOffer(o.bankName, o.discountPercent, discount)))
  }

  predicate WellFormedOffer(o: BankOffer) {
    0.0 <= o.discountPercent <= 100.0 && o.maxDiscount >= 0.0
  }

  /** With a non-negative cart and well-formed offers, the price to pay lies between 0
      and the cart total, and the discount never exceeds the applied offer's cap. */
  lemma FinalPriceBounds(offers: seq<BankOffer>, cartTotal: real, selectedOfferId: Option<int>)
    requires cartTotal >= 0.0
    requires forall o :: o in offers ==> WellFormedOffer(o)
    ensures var r := CalculateFinalPrice(offers, cartTotal, selectedOfferId);
      && 0.0 <= r.discountAmount <= cartTotal
      && 0.0 <= r.finalPrice <= cartTotal
      && (r.appliedOffer.Some? ==> r.discountAmount <= ApplicableOffer(offers, cartTotal, selectedOfferId).value.maxDiscount)
  {
    var a := ApplicableOffer(offers, cartTotal, selectedOfferId);
    if a.Some? {
      CappedDiscountBounds(cartTotal, a.value.discountPercent, a.value.maxDiscount);
    }
  }

  // ---------------------------------------------------------------------------
  // PaymentAgent

  /** `f"{user_id}_{minute}"`: attempts are counted per user and per clock minute. */
  datatype AttemptKey = AttemptKey(userId: int, minute: string)

  /** The gateway's answer. */
  datatype PaymentOutcome =
    | StorePickup
    | Paid(paymentMethod: string, amount: real, transactionId: string)
    | Declined(attemptNumber: nat)
    | DeclinedFinal(attemptNumber: nat)
  {
    function Status(): string {
      match this
      case StorePickup => "store_pickup"
      case Paid(_, _, _) => "success"
      case Declined(_) => "failed"
      case DeclinedFinal(_) => "failed_final"
    }
    /** The `can_retry` flag of the answer. */
    predicate CanRetry() { Declined? }
    /** The `redirect_to_store` flag of the answer. */
    predicate RedirectToStore() { DeclinedFinal? }
  }

  /** The outcome rule of `initiate_payment` for the given attempt number, with the
      random draw passed in as `succeeds`: store orders always go to store pickup; an
      online payment that succeeds carries the amount; a declined one may be retried on
      the first attempt and is redirected to the store from the second on. */
  function PaymentDecision(orderType: string, paymentMethod: string, amount: real, attemptNumber: nat,
                           succeeds: bool, transactionDraw: int): (r: PaymentOutcome)
    requires 100000 <= transactionDraw <= 999999
    ensures r.StorePickup? <==> orderType == "store"
    ensures r.Status() == "success" <==> orderType != "store" && succeeds
    ensures r.Paid? ==> r.amount == amount && r.paymentMethod == paymentMethod
    ensures r.RedirectToStore() <==> orderType != "store" && !succeeds && attemptNumber >= 2
    ensures r.CanRetry() <==> orderType != "store" && !succeeds && attemptNumber < 2
    ensures r.Declined? || r.DeclinedFinal? ==> r.attemptNumber == attemptNumber
  {
    if orderType == "store" then StorePickup
    else if succeeds then Paid(paymentMethod, amount, "TXN" + NatToString(transactionDraw))
    else if attemptNumber >= 2 then DeclinedFinal(attemptNumber)
    else Declined(attemptNumber)
  }

  /** The simulated gateway; it remembers how many payments each user started in each
      minute. */
  class PaymentAgent {
    var attempts: map<AttemptKey, nat>

    constructor ()
      ensures attempts == map[]
    {
      attempts := map[];
    }

    /** The attempt number this call will get. */
    function NextAttempt(key: AttemptKey): (n: nat)
      reads this
      ensures n >= 1
    {
      (if key in attempts then attempts[key] else 0) + 1
    }

    /** `initiate_payment`: counts the attempt for (user, minute) first, for store orders
        too, then decides the outcome from that attempt number. */
    method InitiatePayment(userId: int, orderType: string, paymentMethod: string, amount: real,
                           minute: string, succeeds: bool, transactionDraw: int) returns (r: PaymentOutcome)
      requires 100000 <= transactionDraw <= 999999
      modifies this
      ensures var key := AttemptKey(userId, minute);
        && attempts == old(attempts)[key := old(NextAttempt(key))]
        && r == PaymentDecision(orderType, paymentMethod, amount, old(NextAttempt(key)), succeeds, transactionDraw)
    {
      var key := AttemptKey(userId, minute);
      if key !in attempts {
        attempts := attempts[key := 0];
      }
      attempts := attempts[key := attempts[key] + 1];
      var attemptNumber := attempts[key];
      r := PaymentDecision(orderType, paymentMethod, amount, attemptNumber, succeeds, transactionDraw);
    }
  }

  // ---------------------------------------------------------------------------
  // FulfillmentAgent

  /** The delivery table of `get_delivery_estimate`, in business days. */
  const DeliveryTable: map<string, int> := map["Hyderabad" := 3, "Mumbai" := 4, "Delhi" := 5]

  /** `get_delivery_estimate`: business days to deliver to a city, as the table lists
      it, and 5 for a city it does not list. */
  function DeliveryDays(city: string): (days: int)
    ensures 3 <= days <= 5
    ensures city in DeliveryTable ==> days == DeliveryTable[city]
    ensures city !in DeliveryTable ==> days == 5
  {
    if city == "Hyderabad" then 3 else if city == "Mumbai" then 4 else 5
  }

  /** One of the next three days, as the clock renders it: `stamp` is `%Y%m%d`, `display`
      is `%A, %d %B`. */
  datatype SlotDate = SlotDate(stamp: string, display: string)

  datatype StoreSlot = StoreSlot(id: string, date: string, time: string, store: string)

  function WindowName(w: nat): string
    requires w < 3
  {
    if w == 0 then "morning" else if w == 1 then "afternoon" else "evening"
  }

  function WindowTime(w: nat): string
    requires w < 3
  {
    if w == 0 then "10:00 AM - 1:00 PM" else if w == 1 then "2:00 PM - 5:00 PM" else "5:00 PM - 8:00 PM"
  }

  /** `f"{store_id}_{date:%Y%m%d}_{window}"`. */
  function SlotId(storeId: int, day: SlotDate, w: nat): string
    requires w < 3
  {
    IntToString(storeId) + "_" + day.stamp + "_" + WindowName(w)
  }

  /** Which of the next three days the k-th slot falls on (k / 3). */
  function DayOf(k: nat): (d: nat)
    requires k < 9
    ensures d < 3 && 3 * d <= k < 3 * d + 3
  {
    if k < 3 then 0 else if k < 6 then 1 else 2
  }

  /** Which window of its day the k-th slot is (k % 3). */
  function WindowOf(k: nat): (w: nat)
    requires k < 9
    ensures w < 3 && k == 3 * DayOf(k) + w
  {
    k - 3 * DayOf(k)
  }

  /** The k-th slot offered: day k / 3 of the next three, window k % 3. */
  function SlotAt(storeId: int, storeName: string, upcoming: seq<SlotDate>, k: nat): StoreSlot
    requires |upcoming| == 3 && k < 9
  {
    var d := upcoming[DayOf(k)];
    StoreSlot(SlotId(storeId, d, WindowOf(k)), d.display, WindowTime(WindowOf(k)), storeName)
  }

  function FindStore(stores: seq<StoreRow>, id: int): (r: Option<StoreRow>)
    ensures r.Some? ==> r.value in stores && r.value.id == id
    ensures r.None? <==> forall s :: s in stores ==> s.id != id
  {
    match FirstWhere(stores, (s: StoreRow) => s.id == id)
    case None => None
    case Some(i) => Some(stores[i])
  }

  /** `get_store_slots`: nothing for an unknown store; otherwise nine slots, the three
      windows of each of the next three days, all naming the store. */
  method GetStoreSlots(stores: seq<StoreRow>, storeId: int, upcoming: seq<SlotDate>) returns (slots: seq<StoreSlot>)
    requires |upcoming| == 3
    ensures FindStore(stores, storeId).None? ==> slots == []
    ensures FindStore(stores, storeId).Some? ==>
      && |slots| == 9
      && forall k :: 0 <= k < 9 ==> slots[k] == SlotAt(storeId, FindStore(stores, storeId).value.name, upcoming, k)
  {
    var store := FindStore(stores, storeId);
    if store.None? {
      return [];
    }
    var name := store.value.name;
    slots := [];
    var i := 0;
    while i < 3
      invariant 0 <= i <= 3
      invariant |slots| == 3 * i
      invariant forall k :: 0 <= k < 3 * i ==> slots[k] == SlotAt(storeId, name, upcoming, k)
    {
      var day := upcoming[i];
      var block := [
        StoreSlot(SlotId(storeId, day, 0), day.display, WindowTime(0), name),
        StoreSlot(SlotId(storeId, day, 1), day.display, WindowTime(1), name),
        StoreSlot(SlotId(storeId, day, 2), day.display, WindowTime(2), name)];
      forall w | 0 <= w < 3
        ensures block[w] == SlotAt(storeId, name, upcoming, 3 * i + w)
      {
        assert DayOf(3 * i + w) == i;
      }
      ghost var before := slots;
      slots := slots + block;
      assert forall k :: 0 <= k < 3 * i ==> slots[k] == before[k];
      assert forall w :: 0 <= w < 3 ==> slots[3 * i + w] == block[w];
      i := i + 1;
    }
  }

  /** Two slot ids are equal only for the same day and window, provided the three dates
      render as distinct eight-digit stamps (as consecutive calendar days do). */
  lemma SlotIdInjective(storeId: int, upcoming: seq<SlotDate>, k1: nat, k2: nat)
    requires |upcoming| == 3 && k1 < 9 && k2 < 9
    requires forall d :: 0 <= d < 3 ==> |upcoming[d].stamp| == 8
    requires forall d, e :: 0 <= d < e < 3 ==> upcoming[d].stamp != upcoming[e].stamp
    requires SlotId(storeId, upcoming[DayOf(k1)], WindowOf(k1)) == SlotId(storeId, upcoming[DayOf(k2)], WindowOf(k2))
    ensures k1 == k2
  {
    var prefix := IntToString(storeId) + "_";
    var s1, s2 := upcoming[DayOf(k1)].stamp, upcoming[DayOf(k2)].stamp;
    var w1, w2 := WindowName(WindowOf(k1)), WindowName(WindowOf(k2));
    var id := SlotId(storeId, upcoming[DayOf(k1)], WindowOf(k1));
    JoinParts(prefix, s1, "_", w1);
    JoinParts(prefix, s2, "_", w2);
    assert DayOf(k1) == DayOf(k2);
    assert WindowOf(k1) == WindowOf(k2);
  }

  /** The second and the last of four joined strings can be read back by position. */
  lemma JoinParts(a: string, b: string, c: string, d: string)
    ensures (a + b + c + d)[|a|..|a| + |b|] == b
    ensures (a + b + c + d)[|a| + |b| + |c|..] == d
  {
    var x := a + b + c + d;
    assert forall i :: 0 <= i < |b| ==> x[|a| + i] == b[i];
    assert forall i :: 0 <= i < |d| ==> x[|a| + |b| + |c| + i] == d[i];
  }

  /** The nine slots offered for a store carry pairwise distinct ids. */
  lemma StoreSlotIdsDistinct(storeId: int, storeName: string, upcoming: seq<SlotDate>)
    requires |upcoming| == 3
    requires forall d :: 0 <= d < 3 ==> |upcoming[d].stamp| == 8
    requires forall d, e :: 0 <= d < e < 3 ==> upcoming[d].stamp != upcoming[e].stamp
    ensures forall k1, k2 :: 0 <= k1 < k2 < 9 ==>
      SlotAt(storeId, storeName, upcoming, k1).id != SlotAt(storeId, storeName, upcoming, k2).id
  {
    forall k1, k2 | 0 <= k1 < k2 < 9
      ensures SlotAt(storeId, storeName, upcoming, k1).id != SlotAt(storeId, storeName, upcoming, k2).id
    {
      if SlotAt(storeId, storeName, upcoming, k1).id == SlotAt(storeId, storeName, upcoming, k2).id {
        SlotIdInjective(storeId, upcoming, k1, k2);
      }
    }
  }

  datatype FulfillmentResult =
    | OrderNotFound
    | ProcessingForDelivery(estimatedDeliveryDays: Option<int>)
    | PickupConfirmed(pickupSlot: Option<string>)

  /** `confirm_fulfillment`: a missing order changes nothing; a delivery moves the order
      to "processing"; any other type records the pickup slot and marks the order
      "ready_for_pickup". Only that one order row changes. */
  method ConfirmFulfillment(db: Db, orderId: int, fulfillmentType: string, slotId: Option<string>)
    returns (r: FulfillmentResult)
    requires db.Valid()
    modifies db`orders
    ensures db.Valid()
    ensures FindOrder(old(db.orders), orderId).None? ==> r.OrderNotFound? && db.orders == old(db.orders)
    ensures FindOrder(old(db.orders), orderId).Some? ==>
      var i := FindOrder(old(db.orders), orderId).value;
      var o := old(db.orders)[i];
      if fulfillmentType == "delivery" then
        && db.orders == old(db.orders)[i := o.(status := "processing")]
        && r == ProcessingForDelivery(o.estimatedDeliveryDays)
      else
        && db.orders == old(db.orders)[i := o.(storePickupSlot := slotId, status := "ready_for_pickup")]
        && r == PickupConfirmed(slotId)
  {
    var found := FindOrder(db.orders, orderId);
    if found.None? {
      return OrderNotFound;
    }
    var i := found.value;
    var o := db.orders[i];
    if fulfillmentType == "delivery" {
      db.orders := db.orders[i := o.(status := "processing")];
      r := ProcessingForDelivery(o.estimatedDeliveryDays);
    } else {
      db.orders := db.orders[i := o.(storePickupSlot := slotId, status := "ready_for_pickup")];
      r := PickupConfirmed(slotId);
    }
  }

  // ---------------------------------------------------------------------------
  // PostPurchaseSupportAgent

  /** The stages an order goes through, in order. */
  const TrackingStages: seq<string> := ["Order Confirmed", "Processing", "Shipped", "Delivered"]

  /** The stage each known order status stands for. */
  const StageOfStatus: map<string, string> := map[
    "confirmed" := "Order Confirmed", "processing" := "Processing",
    "shipped" := "Shipped", "delivered" := "Delivered"]

  /** How many stages the timeline shows for an order status: up to and including the
      status's own stage; an unknown status shows only the first stage. */
  function StagesReached(status: string): (n: nat)
    ensures 1 <= n <= 4
    ensures status in StageOfStatus ==> TrackingStages[n - 1] == StageOfStatus[status]
    ensures status !in StageOfStatus ==> n == 1
  {
    if status == "processing" then 2
    else if status == "shipped" then 3
    else if status == "delivered" then 4
    else 1
  }

  datatype TrackingResult =
    | TrackingNotFound
    | Tracking(orderNumber: string, currentStatus: string, timeline: seq<string>, estimatedDeliveryDays: Option<int>)

  /** `track_shipment`: the timeline is always a non-empty prefix of the stage list
      (the stages up to and including the order's current one), and every stage shown
      is complete. */
  function TrackShipment(orders: seq<OrderRow>, orderId: int): (r: TrackingResult)
    ensures r.TrackingNotFound? <==> FindOrder(orders, orderId).None?
    ensures r.Tracking? ==>
      var o := orders[FindOrder(orders, orderId).value];
      && r.orderNumber == o.orderNumber && r.currentStatus == o.status
      && r.estimatedDeliveryDays == o.estimatedDeliveryDays
      && 1 <= |r.timeline| <= 4 && r.timeline == TrackingStages[..|r.timeline|]
      && (o.status in StageOfStatus ==> r.timeline[|r.timeline| - 1] == StageOfStatus[o.status])
      && (o.status !in StageOfStatus ==> r.timeline == ["Order Confirmed"])
      && (o.status == "delivered" <==> |r.timeline| == 4)
  {
    match FindOrder(orders, orderId)
    case None => TrackingNotFound
    case Some(i) =>
      var o := orders[i];
      Tracking(o.orderNumber, o.status, TrackingStages[..StagesReached(o.status)], o.estimatedDeliveryDays)
  }
}
