/** The checkout part of the customer dashboard (frontend/pages/dashboard.tsx): the
    five-step checkout machine driven by the checkout, retry and slot-confirmation
    handlers, the step buttons, the offer toggle, the discount and final total the
    page displays, and the catalogue filter. Server replies are plain input records;
    a request that throws, or whose body is not JSON, is an absent reply. The page's
    React state is a `CheckoutPage` object whose handlers update its fields; each
    handler is specified by a function on a `Page` snapshot of those fields. */
module Dashboard {
  import opened Common
  import opened Text
  import opened ShopTables
  import Agents

  // ---------------------------------------------------------------------------
  // The catalogue filter

  /** `Array.prototype.filter`: the products `p` keeps, in their order. */
  function Keep(products: seq<Product>, p: Product -> bool): (r: seq<Product>)
    ensures |r| <= |products|
    ensures forall x :: x in r <==> x in products && p(x)
  {
    if products == [] then []
    else (if p(products[0]) then [products[0]] else []) + Keep(products[1..], p)
  }

  /** `r` is `s` with some elements left out and the rest in their order. */
  predicate SubsequenceOf(r: seq<Product>, s: seq<Product>)
    decreases |s|
  {
    if r == [] then true
    else if s == [] then false
    else if r[0] == s[0] then SubsequenceOf(r[1..], s[1..])
    else SubsequenceOf(r, s[1..])
  }

  lemma {:induction false} KeepIsSubsequence(products: seq<Product>, p: Product -> bool)
    ensures SubsequenceOf(Keep(products, p), products)
  {
    if products != [] {
      KeepIsSubsequence(products[1..], p);
      var rest := Keep(products[1..], p);
      if p(products[0]) {
        assert ([products[0]] + rest)[1..] == rest;
      } else {
        assert Keep(products, p) == rest;
        SubsequenceOfTail(rest, products);
      }
    }
  }

  /** Leaving out the first element of `s` is allowed when `r` does not use it. */
  lemma {:induction false} SubsequenceOfTail(r: seq<Product>, s: seq<Product>)
    requires s != [] && SubsequenceOf(r, s[1..])
    ensures SubsequenceOf(r, s)
    decreases |s|, 0
  {
    if r != [] && r[0] == s[0] {
      SubsequenceDropHead(r, s[1..]);
    }
  }

  /** Leaving out the first element of a subsequence keeps it one. */
  lemma {:induction false} SubsequenceDropHead(r: seq<Product>, s: seq<Product>)
    requires r != [] && SubsequenceOf(r, s)
    ensures SubsequenceOf(r[1..], s)
    decreases |s|, 1
  {
    if r[0] == s[0] {
      SubsequenceOfTail(r[1..], s);
    } else {
      SubsequenceDropHead(r, s[1..]);
      SubsequenceOfTail(r[1..], s);
    }
  }

  /** Filtering twice keeps what both filters keep. */
  lemma {:induction false} KeepTwice(products: seq<Product>, p: Product -> bool, q: Product -> bool, both: Product -> bool)
    requires forall x :: both(x) == (p(x) && q(x))
    ensures Keep(Keep(products, p), q) == Keep(products, both)
  {
    if products != [] {
      KeepTwice(products[1..], p, q, both);
      var head := if p(products[0]) then [products[0]] else [];
      assert Keep(head + Keep(products[1..], p), q) == Keep(head, q) + Keep(Keep(products[1..], p), q) by {
        KeepConcat(head, Keep(products[1..], p), q);
      }
    }
  }

  lemma {:induction false} KeepConcat(a: seq<Product>, b: seq<Product>, p: Product -> bool)
    ensures Keep(a + b, p) == Keep(a, p) + Keep(b, p)
  {
    if a != [] {
      KeepConcat(a[1..], b, p);
      assert (a + b)[1..] == a[1..] + b;
    } else {
      assert a + b == b;
    }
  }

  /** The category buttons: "all" or a category the product must have. */
  predicate InCategory(product: Product, category: string) {
    category == "all" || product.category == category
  }

  /** The search box: empty, or a case-insensitive part of the title or the description. */
  predicate MatchesQuery(product: Product, query: string) {
    query == "" || Contains(Lower(product.title), Lower(query)) || Contains(Lower(product.description), Lower(query))
  }

  /** The filter effect: the category filter when a category is chosen, then the
      search filter when the search box is not empty. */
  function FilterProducts(products: seq<Product>, category: string, query: string): seq<Product> {
    var byCategory :=
      if category != "all" then Keep(products, (p: Product) => p.category == category) else products;
    if query != "" then
      Keep(byCategory, (p: Product) => Contains(Lower(p.title), Lower(query)) || Contains(Lower(p.description), Lower(query)))
    else byCategory
  }

  /** The shown products are exactly those in the chosen category that match the
      search, in catalogue order. */
  lemma FilterProductsShowsMatches(products: seq<Product>, category: string, query: string)
    ensures var shown := FilterProducts(products, category, query);
      && (forall p :: p in shown <==> p in products && InCategory(p, category) && MatchesQuery(p, query))
      && SubsequenceOf(shown, products)
  {
    var shown := FilterProducts(products, category, query);
    var both := (p: Product) => InCategory(p, category) && MatchesQuery(p, query);
    var cat := (p: Product) => p.category == category;
    var q := (p: Product) => Contains(Lower(p.title), Lower(query)) || Contains(Lower(p.description), Lower(query));
    if category != "all" && query != "" {
      KeepTwice(products, cat, q, both);
      assert shown == Keep(products, both);
    } else if category != "all" {
      KeepTwice(products, cat, (p: Product) => true, both);
      assert Keep(Keep(products, cat), (p: Product) => true) == Keep(products, cat) by {
        KeepAll(Keep(products, cat), (p: Product) => true);
      }
      assert shown == Keep(products, both);
    } else if query != "" {
      KeepTwice(products, (p: Product) => true, q, both);
      KeepAll(products, (p: Product) => true);
      assert shown == Keep(products, both);
    } else {
      KeepAll(products, both);
      assert shown == Keep(products, both);
    }
    KeepIsSubsequence(products, both);
  }

  /** A filter that keeps everything changes nothing. */
  lemma {:induction false} KeepAll(products: seq<Product>, p: Product -> bool)
    requires forall x :: p(x)
    ensures Keep(products, p) == products
  {
    if products != [] {
      KeepAll(products[1..], p);
    }
  }

  // ---------------------------------------------------------------------------
  // The offers on the second step

  /** An offer id as JavaScript reads it in a condition: `null` and 0 are false. */
  predicate Truthy(id: Option<int>) {
    id.Some? && id.value != 0
  }

  /** Clicking an offer selects it, or clears the selection when it was selected. */
  function ToggleOffer(selected: Option<int>, id: int): (r: Option<int>)
    ensures r == Some(id) <==> selected != Some(id)
    ensures r == None <==> selected == Some(id)
  {
    if selected == Some(id) then None else Some(id)
  }

  /** Two clicks on the same offer restore the selection exactly when nothing or that
      offer was selected; with another offer selected they leave nothing selected. */
  lemma ToggleOfferTwice(selected: Option<int>, id: int)
    ensures ToggleOffer(ToggleOffer(selected, id), id) == selected <==> selected == None || selected == Some(id)
    ensures selected != None && selected != Some(id) ==> ToggleOffer(ToggleOffer(selected, id), id) == None
  {
  }

  /** The discount line: with a selected offer, the offer's percentage of the cart
      total capped at its maximum discount, where an offer missing from the list
      counts as 0 per cent capped at 0; without one, nothing. The minimum order is
      not looked at. */
  function DisplayedDiscount(offers: seq<BankOffer>, total: real, selected: Option<int>): (d: real)
    ensures !Truthy(selected) ==> d == 0.0
    ensures Truthy(selected) && Agents.FindOffer(offers, selected.value).None? ==> d == 0.0
    ensures Truthy(selected) && Agents.FindOffer(offers, selected.value).Some? ==>
      var o := Agents.FindOffer(offers, selected.value).value;
      d == CappedDiscount(total, o.discountPercent, o.maxDiscount)
  {
    if !Truthy(selected) then 0.0
    else
      var found := Agents.FindOffer(offers, selected.value);
      var percent := if found.Some? then found.value.discountPercent else 0.0;
      var cap := if found.Some? then found.value.maxDiscount else 0.0;
      MinReal(total * percent / 100.0, cap)
  }

  /** The final total line: the cart total less the same discount expression. */
  function DisplayedFinalTotal(offers: seq<BankOffer>, total: real, selected: Option<int>): real {
    total - DisplayedDiscount(offers, total, selected)
  }

  /** With a non-negative cart total and well-formed offers, the displayed discount
      is between 0 and the total, and so is the displayed final total; the two add up
      to the cart total. */
  lemma DisplayedTotalsBounds(offers: seq<BankOffer>, total: real, selected: Option<int>)
    requires total >= 0.0
    requires forall o :: o in offers ==> Agents.WellFormedOffer(o)
    ensures 0.0 <= DisplayedDiscount(offers, total, selected) <= total
    ensures 0.0 <= DisplayedFinalTotal(offers, total, selected) <= total
    ensures DisplayedDiscount(offers, total, selected) + DisplayedFinalTotal(offers, total, selected) == total
  {
    if Truthy(selected) {
      var found := Agents.FindOffer(offers, selected.value);
      if found.Some? {
        CappedDiscountBounds(total, found.value.discountPercent, found.value.maxDiscount);
      }
    }
  }

  /** The page and the server agree on the discount except when the cart total is
      below the selected offer's minimum order, which only the server checks. */
  lemma DisplayedDiscountMatchesChargedUnlessBelowMinimum(offers: seq<BankOffer>, total: real, selected: Option<int>)
    ensures var charged := Agents.CalculateFinalPrice(offers, total, selected);
      DisplayedDiscount(offers, total, selected) != charged.discountAmount ==>
        && Truthy(selected) && Agents.FindOffer(offers, selected.value).Some?
        && total < Agents.FindOffer(offers, selected.value).value.minOrder
  {
  }

  /** An instance of the disagreement: 10 per cent up to 500 with a minimum order of
      2000 shows 100 off a cart of 1000, while the server charges the full 1000. */
  lemma DisplayedDiscountIgnoresMinimumOrder()
    ensures var offers := [BankOffer(1, "HDFC", 10.0, 500.0, 2000.0, "", true)];
      && DisplayedDiscount(offers, 1000.0, Some(1)) == 100.0
      && Agents.CalculateFinalPrice(offers, 1000.0, Some(1)).discountAmount == 0.0
      && Agents.CalculateFinalPrice(offers, 1000.0, Some(1)).finalPrice == 1000.0
  {
    var offers := [BankOffer(1, "HDFC", 10.0, 500.0, 2000.0, "", true)];
    assert Agents.FindOffer(offers, 1) == Some(offers[0]);
  }

  // ---------------------------------------------------------------------------
  // The page state

  /** `checkoutStep`: 1 delivery type, 2 offer, 3 payment, 4 store slot, 5 completed. */
  datatype Step = DeliveryType | Offer | Payment | StoreSlot | Completed

  datatype OrderType = Online | Store

  datatype PayMethod = Upi | Cod

  datatype Slot = Slot(id: string, date: string, time: string, store: string)

  /** The fields of a reply's `order` that the page reads. */
  datatype OrderRef = OrderRef(id: int, orderNumber: string)

  /** A reply's `payment` part. */
  datatype PaymentInfo = PaymentInfo(canRetry: bool, redirectToStore: bool)

  /** A checkout or retry reply; an error reply (`{error: ...}`) has `success` false
      and no payment part. */
  datatype Reply = Reply(
    success: bool, order: Option<OrderRef>, aiMessage: string,
    storeSlots: Option<seq<Slot>>, payment: Option<PaymentInfo>)

  datatype CartItem = CartItem(id: int, productId: int, size: string, quantity: int, subtotal: real)

  datatype Page = Page(
    step: Step, orderType: OrderType, payMethod: PayMethod, selectedOffer: Option<int>,
    paymentResult: Option<Reply>, storeSlots: seq<Slot>, selectedSlot: string,
    orderResult: Option<OrderRef>, paymentAttempts: nat,
    cartItems: seq<CartItem>, cartTotal: real, aiMessage: string)

  /** The state the page starts with, holding the cart it loaded. */
  function InitialPage(cartItems: seq<CartItem>, cartTotal: real): (p: Page)
    ensures p.step == DeliveryType && p.paymentAttempts == 0 && p.paymentResult == None
  {
    Page(DeliveryType, Online, Upi, None, None, [], "", None, 0, cartItems, cartTotal, "")
  }

  /** The body of the checkout request. */
  datatype CheckoutRequest = CheckoutRequest(orderType: OrderType, payMethod: PayMethod, offerId: Option<int>)

  /** The body of the retry request; an absent order id is left out of the body. */
  datatype RetryRequest = RetryRequest(orderId: Option<int>, payMethod: PayMethod)

  /** The body of the slot confirmation request. */
  datatype SlotRequest = SlotRequest(orderId: Option<int>, slotId: string)

  predicate Redirects(d: Reply) {
    d.payment.Some? && d.payment.value.redirectToStore
  }

  /** `handleCheckout` once the reply is in: a successful checkout keeps the order and
      empties the cart and goes to the slot step for a store order, to the end for an
      online one; a failed one counts one more attempt and goes to the slot step when
      the reply redirects to the store (fetching the slots, `slotsReply`, absent when
      that request fails), else back to payment. Without a reply nothing changes. */
  function AfterCheckout(s: Page, reply: Option<Reply>, slotsReply: Option<seq<Slot>>): (r: Page)
    ensures reply.None? ==> r == s
    ensures reply.Some? ==> r.paymentResult == reply
    ensures reply.Some? && reply.value.success ==>
      && r.step == (if s.orderType == Store then StoreSlot else Completed)
      && r.orderResult == reply.value.order && r.cartItems == [] && r.cartTotal == 0.0
      && r.paymentAttempts == s.paymentAttempts
    ensures reply.Some? && !reply.value.success ==>
      && r.paymentAttempts == s.paymentAttempts + 1
      && (r.step == StoreSlot <==> Redirects(reply.value))
      && (r.step != StoreSlot ==> r.step == Payment)
      && r.orderResult == s.orderResult && r.cartItems == s.cartItems && r.cartTotal == s.cartTotal
  {
    match reply
    case None => s
    case Some(d) =>
      if d.success then
        s.(paymentResult := reply, orderResult := d.order,
           aiMessage := if d.aiMessage != "" then d.aiMessage else s.aiMessage,
           storeSlots := if d.storeSlots.Some? then d.storeSlots.value else s.storeSlots,
           step := if s.orderType == Store then StoreSlot else Completed,
           cartItems := [], cartTotal := 0.0)
      else if Redirects(d) then
        s.(paymentResult := reply, paymentAttempts := s.paymentAttempts + 1, step := StoreSlot,
           storeSlots := if slotsReply.Some? then slotsReply.value else s.storeSlots)
      else
        s.(paymentResult := reply, paymentAttempts := s.paymentAttempts + 1, step := Payment)
  }

  /** The order the retry names: the kept order's id when it is truthy, else the id of
      the order in the last reply, if any. */
  function RetryOrderId(s: Page): (id: Option<int>)
    ensures s.orderResult.Some? && s.orderResult.value.id != 0 ==> id == Some(s.orderResult.value.id)
    ensures id.Some? ==>
      || (s.orderResult.Some? && id.value == s.orderResult.value.id)
      || (s.paymentResult.Some? && s.paymentResult.value.order.Some? && id.value == s.paymentResult.value.order.value.id)
    ensures id.None? ==>
      && (s.orderResult.None? || s.orderResult.value.id == 0)
      && (s.paymentResult.None? || s.paymentResult.value.order.None?)
  {
    if s.orderResult.Some? && s.orderResult.value.id != 0 then Some(s.orderResult.value.id)
    else if s.paymentResult.Some? && s.paymentResult.value.order.Some? then Some(s.paymentResult.value.order.value.id)
    else None
  }

  /** `retryPayment` once the reply is in: success finishes; a failure counts one more
      attempt and goes to the slot step only when the count read before the increment
      was at least 1, otherwise the step stays. Without a reply nothing changes. */
  function AfterRetry(s: Page, reply: Option<Reply>): (r: Page)
    ensures reply.None? ==> r == s
    ensures reply.Some? ==> r.paymentResult == reply && r.orderResult == s.orderResult && r.cartItems == s.cartItems
    ensures reply.Some? && reply.value.success ==> r.step == Completed && r.paymentAttempts == s.paymentAttempts
    ensures reply.Some? && !reply.value.success ==>
      && r.paymentAttempts == s.paymentAttempts + 1
      && (s.paymentAttempts >= 1 ==> r.step == StoreSlot)
      && (s.paymentAttempts == 0 ==> r.step == s.step)
  {
    match reply
    case None => s
    case Some(d) =>
      if d.success then s.(paymentResult := reply, step := Completed)
      else
        s.(paymentResult := reply, paymentAttempts := s.paymentAttempts + 1,
           step := if s.paymentAttempts >= 1 then StoreSlot else s.step)
  }

  /** `confirmSlot`: with no slot chosen nothing is sent and nothing changes;
      otherwise an ok reply finishes and any other leaves the page as it was. */
  function AfterConfirmSlot(s: Page, ok: bool): (r: Page)
    ensures s.selectedSlot == "" || !ok ==> r == s
    ensures s.selectedSlot != "" && ok ==> r == s.(step := Completed)
  {
    if s.selectedSlot == "" then s
    else if ok then s.(step := Completed)
    else s
  }

  /** The slot request `confirmSlot` sends, if any. */
  function SlotRequestOf(s: Page): (req: Option<SlotRequest>)
    ensures req.None? <==> s.selectedSlot == ""
  {
    if s.selectedSlot == "" then None
    else Some(SlotRequest(if s.orderResult.Some? then Some(s.orderResult.value.id) else None, s.selectedSlot))
  }

  /** The buttons that only set the step. */
  datatype Button =
    | ContinueToOffers | BackToDelivery | ContinueToPayment | BackToOffers
    | OpenCheckout | ContinueShopping

  /** Where a button is on the page: the step buttons on their step, the checkout
      entry in the sidebar and under the cart, "continue shopping" on the last step. */
  predicate ButtonShown(b: Button, step: Step) {
    match b
    case ContinueToOffers => step == DeliveryType
    case BackToDelivery => step == Offer
    case ContinueToPayment => step == Offer
    case BackToOffers => step == Payment
    case OpenCheckout => true
    case ContinueShopping => step == Completed
  }

  function ButtonTarget(b: Button): Step {
    match b
    case ContinueToOffers => Offer
    case BackToDelivery => DeliveryType
    case ContinueToPayment => Payment
    case BackToOffers => Offer
    case OpenCheckout => DeliveryType
    case ContinueShopping => DeliveryType
  }

  /** The Pay button retries exactly when the last reply allows a retry. */
  predicate CanRetry(s: Page) {
    s.paymentResult.Some? && s.paymentResult.value.payment.Some? && s.paymentResult.value.payment.value.canRetry
  }

  /** Something the customer does on the checkout view, with the replies the
      requests it makes get. */
  datatype Event =
    | ChooseOrderType(orderType: OrderType)
    | Press(button: Button)
    | ClickOffer(offerId: int)
    | ChoosePayMethod(payMethod: PayMethod)
    | Pay(reply: Option<Reply>, slotsReply: Option<seq<Slot>>)
    | ChooseSlot(slotId: string)
    | ConfirmSlot(ok: bool)

  predicate HasSlot(slots: seq<Slot>, id: string) {
    exists k :: 0 <= k < |slots| && slots[k].id == id
  }

  /** What an event does; an event whose control is not on the current step does
      nothing. */
  function Apply(s: Page, e: Event): Page {
    match e
    case ChooseOrderType(t) => if s.step == DeliveryType then s.(orderType := t) else s
    case Press(b) => if ButtonShown(b, s.step) then s.(step := ButtonTarget(b)) else s
    case ClickOffer(id) => if s.step == Offer then s.(selectedOffer := ToggleOffer(s.selectedOffer, id)) else s
    case ChoosePayMethod(m) => if s.step == Payment then s.(payMethod := m) else s
    case Pay(reply, slotsReply) =>
      if s.step != Payment then s
      else if CanRetry(s) then AfterRetry(s, reply)
      else AfterCheckout(s, reply, slotsReply)
    case ChooseSlot(id) => if s.step == StoreSlot && HasSlot(s.storeSlots, id) then s.(selectedSlot := id) else s
    case ConfirmSlot(ok) => if s.step == StoreSlot then AfterConfirmSlot(s, ok) else s
  }

  /** The event is a payment on the payment step whose reply reports a failure. */
  predicate FailedPayment(s: Page, e: Event) {
    s.step == Payment && e.Pay? && e.reply.Some? && !e.reply.value.success
  }

  /** The attempt counter moves only by one, and only on a failed payment. */
  lemma ApplyCountsFailedPayments(s: Page, e: Event)
    ensures Apply(s, e).paymentAttempts == s.paymentAttempts + (if FailedPayment(s, e) then 1 else 0)
  {
  }

  function Run(s: Page, events: seq<Event>): Page
    decreases |events|
  {
    if events == [] then s else Run(Apply(s, events[0]), events[1..])
  }

  /** Over any run the attempt counter never decreases and grows by at most one per
      event. */
  lemma {:induction false} RunAttemptsOnlyGrow(s: Page, events: seq<Event>)
    ensures s.paymentAttempts <= Run(s, events).paymentAttempts <= s.paymentAttempts + |events|
    decreases |events|
  {
    if events != [] {
      ApplyCountsFailedPayments(s, events[0]);
      RunAttemptsOnlyGrow(Apply(s, events[0]), events[1..]);
    }
  }

  /** The retry rule reads the counter before its increment: from the payment step
      with no failure counted, a failed retry stays on the payment step, and a second
      failed retry moves to the slot step. */
  lemma SecondFailedRetryRedirects(s: Page, d1: Reply, d2: Reply)
    requires s.step == Payment && s.paymentAttempts == 0
    requires !d1.success && !d2.success
    ensures var s1 := AfterRetry(s, Some(d1));
      && s1.step == Payment && s1.paymentAttempts == 1
      && AfterRetry(s1, Some(d2)).step == StoreSlot
      && AfterRetry(s1, Some(d2)).paymentAttempts == 2
  {
  }

  /** The server's reply to a failed checkout carries no order. On a page that holds
      no order, such a reply that allows a retry makes the Pay button retry, and the
      retry names no order at all. */
  lemma RetryAfterFailedCheckoutNamesNoOrder(s: Page, d: Reply, slotsReply: Option<seq<Slot>>)
    requires s.step == Payment && !CanRetry(s) && s.orderResult.None?
    requires !d.success && d.order.None? && d.payment == Some(PaymentInfo(true, false))
    ensures var s1 := Apply(s, Pay(Some(d), slotsReply));
      && s1.step == Payment && CanRetry(s1)
      && RetryOrderId(s1) == None
  {
  }

  // ---------------------------------------------------------------------------
  // The page object

  /** The checkout state of the dashboard component. */
  class CheckoutPage {
    var step: Step
    var orderType: OrderType
    var payMethod: PayMethod
    var selectedOffer: Option<int>
    var paymentResult: Option<Reply>
    var storeSlots: seq<Slot>
    var selectedSlot: string
    var orderResult: Option<OrderRef>
    var paymentAttempts: nat
    var cartItems: seq<CartItem>
    var cartTotal: real
    var aiMessage: string

    function Snapshot(): Page
      reads this
    {
      Page(step, orderType, payMethod, selectedOffer, paymentResult, storeSlots, selectedSlot,
           orderResult, paymentAttempts, cartItems, cartTotal, aiMessage)
    }

    /** The component's initial state, with the cart it loaded. */
    constructor (items: seq<CartItem>, total: real)
      ensures Snapshot() == InitialPage(items, total)
    {
      step, orderType, payMethod, selectedOffer := DeliveryType, Online, Upi, None;
      paymentResult, storeSlots, selectedSlot, orderResult := None, [], "", None;
      paymentAttempts, cartItems, cartTotal, aiMessage := 0, items, total, "";
    }

    /** `handleCheckout`: sends the order type, payment method and selected offer,
        then applies the reply. */
    method HandleCheckout(reply: Option<Reply>, slotsReply: Option<seq<Slot>>) returns (request: CheckoutRequest)
      modifies this
      ensures request == CheckoutRequest(old(orderType), old(payMethod), old(selectedOffer))
      ensures Snapshot() == AfterCheckout(old(Snapshot()), reply, slotsReply)
    {
      request := CheckoutRequest(orderType, payMethod, selectedOffer);
      if reply.None? {
        return;
      }
      ghost var before := Snapshot();
      var data := reply.value;
      paymentResult := reply;
      if data.success {
        orderResult := data.order;
        aiMessage := if data.aiMessage != "" then data.aiMessage else aiMessage;
        storeSlots := if data.storeSlots.Some? then data.storeSlots.value else storeSlots;
        step := if orderType == Store then StoreSlot else Completed;
        cartItems, cartTotal := [], 0.0;
        assert Snapshot() == before.(paymentResult := reply, orderResult := data.order, aiMessage := aiMessage,
          storeSlots := storeSlots, step := step, cartItems := [], cartTotal := 0.0);
      } else {
        paymentAttempts := paymentAttempts + 1;
        if data.payment.Some? && data.payment.value.redirectToStore {
          step := StoreSlot;
          storeSlots := if slotsReply.Some? then slotsReply.value else storeSlots;
          assert Snapshot() == before.(paymentResult := reply, paymentAttempts := paymentAttempts,
            step := StoreSlot, storeSlots := storeSlots);
        } else {
          step := Payment;
          assert Snapshot() == before.(paymentResult := reply, paymentAttempts := paymentAttempts, step := Payment);
        }
      }
    }

    /** `retryPayment`: sends the order to retry and the payment method, then applies
        the reply, comparing the counter as it was before this retry. */
    method RetryPayment(reply: Option<Reply>) returns (request: RetryRequest)
      modifies this
      ensures request == RetryRequest(RetryOrderId(old(Snapshot())), old(payMethod))
      ensures Snapshot() == AfterRetry(old(Snapshot()), reply)
    {
      var orderId := if orderResult.Some? && orderResult.value.id != 0 then Some(orderResult.value.id)
                     else if paymentResult.Some? && paymentResult.value.order.Some? then Some(paymentResult.value.order.value.id)
                     else None;
      request := RetryRequest(orderId, payMethod);
      var attemptsSeen := paymentAttempts;
      if reply.None? {
        return;
      }
      var data := reply.value;
      paymentResult := reply;
      if data.success {
        step := Completed;
      } else {
        paymentAttempts := paymentAttempts + 1;
        if attemptsSeen >= 1 {
          step := StoreSlot;
        }
      }
    }

    /** `confirmSlot`: nothing without a chosen slot; otherwise sends the order and
        the slot and finishes when the reply is ok. */
    method ConfirmSlot(ok: bool) returns (request: Option<SlotRequest>)
      modifies this
      ensures request == SlotRequestOf(old(Snapshot()))
      ensures Snapshot() == AfterConfirmSlot(old(Snapshot()), ok)
    {
      if selectedSlot == "" {
        return None;
      }
      request := Some(SlotRequest(if orderResult.Some? then Some(orderResult.value.id) else None, selectedSlot));
      if ok {
        step := Completed;
      }
    }

    /** The onClick handlers of the checkout view, each present only on its step. */
    method Dispatch(e: Event)
      modifies this
      ensures Snapshot() == Apply(old(Snapshot()), e)
    {
      match e
      case ChooseOrderType(t) =>
        if step == DeliveryType {
          orderType := t;
        }
      case Press(b) =>
        if ButtonShown(b, step) {
          step := ButtonTarget(b);
        }
      case ClickOffer(id) =>
        if step == Offer {
          selectedOffer := if selectedOffer == Some(id) then None else Some(id);
        }
      case ChoosePayMethod(m) =>
        if step == Payment {
          payMethod := m;
        }
      case Pay(reply, slotsReply) =>
        if step == Payment {
          if paymentResult.Some? && paymentResult.value.payment.Some? && paymentResult.value.payment.value.canRetry {
            var _ := RetryPayment(reply);
          } else {
            var _ := HandleCheckout(reply, slotsReply);
          }
        }
      case ChooseSlot(id) =>
        if step == StoreSlot && HasSlot(storeSlots, id) {
          selectedSlot := id;
        }
      case ConfirmSlot(ok) =>
        if step == StoreSlot {
          var _ := ConfirmSlot(ok);
        }
    }
  }
}
