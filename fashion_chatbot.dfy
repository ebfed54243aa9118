/** The step-driven shopping chatbot of backend/fashion_chatbot.py. Its state
    dictionary is a `ChatSession` object whose node methods update the fields in
    place; each node is specified by a function on a `ChatState` snapshot of those
    fields. Prices are whole rupees. The random fallback price and the random payment
    outcome are parameters; reply texts (and the invoice) are reduced to what they
    report. */
module FashionChatbot {
  import opened Common
  import opened Text

  // ---------------------------------------------------------------------------
  // Catalogue

  datatype Item = Item(name: string, stock: int, price: int)

  /** The inventory categories, in the order the bot tries them. */
  const Categories: seq<string> := ["shirts", "pants", "ethnic", "athleisure"]

  /** `INVENTORY.get(category, [])`. */
  function InventoryOf(category: string): seq<Item> {
    if category == "shirts" then
      [Item("Formal Shirt 1", 5, 1999), Item("Formal Shirt 2", 0, 1799), Item("Formal Shirt 3", 4, 2199)]
    else if category == "pants" then
      [Item("Pant 1", 6, 2499), Item("Pant 2", 3, 2299), Item("Pant 3", 0, 2699)]
    else if category == "ethnic" then
      [Item("Ethnic Wear 1", 2, 3499), Item("Ethnic Wear 2", 5, 2999)]
    else if category == "athleisure" then
      [Item("Athleisure Wear 1", 7, 1599), Item("Athleisure Wear 2", 4, 1799)]
    else []
  }

  /** `COMPLEMENTARY.get(category, [])`. */
  function Complementary(category: string): (cats: seq<string>)
    ensures forall c :: c in cats ==> c in Categories
  {
    if category == "shirts" then ["pants"]
    else if category == "pants" then ["shirts"]
    else if category == "ethnic" then ["ethnic"]
    else if category == "athleisure" then ["athleisure"]
    else []
  }

  /** `available_products`: the names of a category's items that are in stock, in
      catalogue order. */
  function AvailableProducts(category: string): (names: seq<string>)
    requires category in Categories
    ensures forall n :: n in names <==> exists it :: it in InventoryOf(category) && it.stock > 0 && it.name == n
  {
    InStockNames(InventoryOf(category))
  }

  function InStockNames(items: seq<Item>): (names: seq<string>)
    ensures |names| <= |items|
    ensures forall n :: n in names <==> exists it :: it in items && it.stock > 0 && it.name == n
  {
    if items == [] then []
    else (if items[0].stock > 0 then [items[0].name] else []) + InStockNames(items[1..])
  }

  /** Every item of the inventory, category by category. */
  const AllItems: seq<Item> :=
    InventoryOf("shirts") + InventoryOf("pants") + InventoryOf("ethnic") + InventoryOf("athleisure")

  /** The price of the first item of the whole inventory with this name, if any. */
  function PriceAnywhere(name: string): (r: Option<int>)
    ensures r.Some? ==> exists it :: it in AllItems && it.name == name && it.price == r.value
    ensures r.None? ==> forall it :: it in AllItems ==> it.name != name
  {
    match FirstWhere(AllItems, (it: Item) => it.name == name)
    case None => None
    case Some(k) => Some(AllItems[k].price)
  }

  // ---------------------------------------------------------------------------
  // State

  datatype Step =
    | AskProduct | SelectProduct | SelectSize | CartDecision | Recommendation | ShopMore
    | ApplyOffer | Payment | Support | Csat | End

  datatype CartEntry = CartEntry(product: string, size: string, price: int)

  /** What the bot's reply reports. */
  datatype Reply =
    | NoReply
    | AskCategory
    | ShowProducts(category: string)  // lists `AvailableProducts(category)`
    | AskSize
    | AskAddToCart
    | AddedWithRecommendations(recs: seq<string>)
    | AddedAskShopMore
    | AskWhatElse
    | RecommendedAdded(item: string)
    | RecommendationSkipped
    | AskNext
    | CartSummary(cart: seq<CartEntry>, subtotal: int)
    | FinalAmount(amount: int)
    | PayAtStore
    | PaymentSucceeded
    | PaymentFailedRetry
    | PaymentFailedTwice
    | OrderCompleted(cart: seq<CartEntry>, subtotal: int, discount: int, finalPrice: int)
    | ThanksForRating(rating: string)

  datatype ChatState = ChatState(
    userInput: string, step: Step, category: string, product: string, size: string,
    cart: seq<CartEntry>, cartTotal: int, discount: int, finalPrice: int,
    paymentAttempts: int, recommendedItems: seq<string>, response: Reply, price: int)

  function SumPrices(cart: seq<CartEntry>): int {
    if cart == [] then 0 else SumPrices(cart[..|cart| - 1]) + cart[|cart| - 1].price
  }

  lemma SumPricesAppend(cart: seq<CartEntry>, e: CartEntry)
    ensures SumPrices(cart + [e]) == SumPrices(cart) + e.price
  {
    assert (cart + [e])[..|cart|] == cart;
  }

  predicate BeforePayment(step: Step) {
    step in {AskProduct, SelectProduct, SelectSize, CartDecision, Recommendation, ShopMore, ApplyOffer}
  }

  /** What holds of every state reachable from the initial one: the total is the sum
      of the cart's prices, no online payment is tried before the payment step, at
      most one before the retry and never more than two; a chosen category is a real
      one, and it is chosen whenever a product is being selected. */
  predicate Consistent(s: ChatState) {
    && s.cartTotal == SumPrices(s.cart)
    && 0 <= s.paymentAttempts <= 2
    && (BeforePayment(s.step) ==> s.paymentAttempts == 0)
    && (s.step == Payment ==> s.paymentAttempts <= 1)
    && (s.category == "" || s.category in Categories)
    && (s.step == SelectProduct ==> s.category in Categories)
  }

  /** `create_initial_state`. */
  function InitialState(): (s: ChatState)
    ensures Consistent(s) && s.step == AskProduct && s.cart == [] && s.paymentAttempts == 0
  {
    ChatState("", AskProduct, "", "", "", [], 0, 0, 0, 0, [], NoReply, 0)
  }

  /** `norm`: stripped and lower-cased. */
  function Norm(text: string): string {
    Lower(Strip(text))
  }

  /** The input, stripped and lower-cased, is "yes". */
  predicate SaysYes(text: string) {
    Norm(text) == "yes"
  }

  // ---------------------------------------------------------------------------
  // Recommendations

  datatype Candidate = Candidate(name: string, price: int, distance: real)

  function Abs(x: real): (r: real)
    ensures r >= 0.0 && (r == x || r == -x)
  {
    if x < 0.0 then -x else x
  }

  /** The average cart price, or 2000 for an empty cart. */
  function AveragePrice(cart: seq<CartEntry>): real {
    if cart == [] then 2000.0 else SumPrices(cart) as real / |cart| as real
  }

  predicate InCart(cart: seq<CartEntry>, name: string) {
    exists e :: e in cart && e.product == name
  }

  /** The candidates a category's items give: in stock, not in the cart, with their
      distance from the average price. */
  function CandidatesIn(items: seq<Item>, cart: seq<CartEntry>, avg: real): seq<Candidate> {
    if items == [] then []
    else
      var it := items[|items| - 1];
      CandidatesIn(items[..|items| - 1], cart, avg)
        + (if it.stock <= 0 || InCart(cart, it.name) then [] else [Candidate(it.name, it.price, Abs(it.price as real - avg))])
  }

  /** The candidates over a list of categories, category by category. */
  function CandidatesOver(cats: seq<string>, cart: seq<CartEntry>, avg: real): seq<Candidate> {
    if cats == [] then []
    else CandidatesOver(cats[..|cats| - 1], cart, avg) + CandidatesIn(InventoryOf(cats[|cats| - 1]), cart, avg)
  }

  /** Every candidate of a list of items is one of them, in stock and not in the cart. */
  lemma {:induction false} CandidatesInSound(items: seq<Item>, cart: seq<CartEntry>, avg: real)
    ensures forall c :: c in CandidatesIn(items, cart, avg) ==>
      exists it :: it in items && it.stock > 0 && !InCart(cart, it.name) && c == Candidate(it.name, it.price, Abs(it.price as real - avg))
  {
    if items != [] {
      var init := items[..|items| - 1];
      CandidatesInSound(init, cart, avg);
      assert forall it :: it in init ==> it in items;
    }
  }

  /** Every candidate of a list of categories is an in-stock item of one of them that
      is not in the cart. */
  lemma {:induction false} CandidatesOverSound(cats: seq<string>, cart: seq<CartEntry>, avg: real)
    ensures forall c :: c in CandidatesOver(cats, cart, avg) ==>
      exists cat, it :: cat in cats && it in InventoryOf(cat) && it.stock > 0 && !InCart(cart, it.name) && c == Candidate(it.name, it.price, Abs(it.price as real - avg))
  {
    if cats != [] {
      var init := cats[..|cats| - 1];
      CandidatesOverSound(init, cart, avg);
      CandidatesInSound(InventoryOf(cats[|cats| - 1]), cart, avg);
      assert forall cat :: cat in init ==> cat in cats;
    }
  }

  /** Insert a candidate after every candidate at most as far from the average. */
  function Insert(sorted: seq<Candidate>, c: Candidate): seq<Candidate> {
    if sorted == [] then [c]
    else if c.distance < sorted[0].distance then [c] + sorted
    else [sorted[0]] + Insert(sorted[1..], c)
  }

  lemma {:induction false} InsertPermutes(sorted: seq<Candidate>, c: Candidate)
    ensures multiset(Insert(sorted, c)) == multiset(sorted) + multiset{c}
  {
    if sorted != [] && c.distance >= sorted[0].distance {
      var rest := sorted[1..];
      calc {
        multiset(Insert(sorted, c));
        multiset([sorted[0]] + Insert(rest, c));
        multiset{sorted[0]} + multiset(Insert(rest, c));
        { InsertPermutes(rest, c); }
        multiset{sorted[0]} + multiset(rest) + multiset{c};
        { assert sorted == [sorted[0]] + rest; }
        multiset(sorted) + multiset{c};
      }
    }
  }

  /** Inserting adds `c` and nothing else. */
  lemma {:induction false} InsertMembers(sorted: seq<Candidate>, c: Candidate)
    ensures forall x :: x in Insert(sorted, c) <==> x == c || x in sorted
  {
    if sorted != [] && c.distance >= sorted[0].distance {
      InsertMembers(sorted[1..], c);
      assert sorted == [sorted[0]] + sorted[1..];
    }
  }

  predicate NearestFirst(cs: seq<Candidate>) {
    forall i, j :: 0 <= i < j < |cs| ==> cs[i].distance <= cs[j].distance
  }

  lemma ConsNearestFirst(x: Candidate, rest: seq<Candidate>)
    requires NearestFirst(rest)
    requires forall k :: 0 <= k < |rest| ==> x.distance <= rest[k].distance
    ensures NearestFirst([x] + rest)
  {
    var cs := [x] + rest;
    forall i, j | 0 <= i < j < |cs| ensures cs[i].distance <= cs[j].distance {
      assert cs[j] == rest[j - 1];
      if i > 0 {
        assert cs[i] == rest[i - 1];
      }
    }
  }

  lemma {:induction false} InsertKeepsOrder(sorted: seq<Candidate>, c: Candidate)
    requires NearestFirst(sorted)
    ensures NearestFirst(Insert(sorted, c))
  {
    if sorted == [] {
    } else if c.distance < sorted[0].distance {
      ConsNearestFirst(c, sorted);
    } else {
      var tail := sorted[1..];
      var rest := Insert(tail, c);
      InsertKeepsOrder(tail, c);
      InsertMembers(tail, c);
      forall k | 0 <= k < |rest| ensures sorted[0].distance <= rest[k].distance {
        assert rest[k] in rest;
        if rest[k] != c {
          var m :| 0 <= m < |tail| && tail[m] == rest[k];
          assert sorted[m + 1] == rest[k];
        }
      }
      ConsNearestFirst(sorted[0], rest);
    }
  }

  /** Python's stable sort on the score 1 / (1 + distance), highest first: nearest
      first, ties kept in candidate order. */
  function SortByNearness(cs: seq<Candidate>): seq<Candidate> {
    if cs == [] then [] else Insert(SortByNearness(cs[..|cs| - 1]), cs[|cs| - 1])
  }

  /** The ranking is a permutation of the candidates. */
  lemma {:induction false} SortByNearnessPermutes(cs: seq<Candidate>)
    ensures multiset(SortByNearness(cs)) == multiset(cs)
  {
    if cs != [] {
      SortByNearnessPermutes(cs[..|cs| - 1]);
      InsertPermutes(SortByNearness(cs[..|cs| - 1]), cs[|cs| - 1]);
      assert cs == cs[..|cs| - 1] + [cs[|cs| - 1]];
    }
  }

  lemma {:induction false} SortByNearnessSorts(cs: seq<Candidate>)
    ensures NearestFirst(SortByNearness(cs))
  {
    if cs != [] {
      SortByNearnessSorts(cs[..|cs| - 1]);
      InsertKeepsOrder(SortByNearness(cs[..|cs| - 1]), cs[|cs| - 1]);
    }
  }

  function Names(cs: seq<Candidate>): (names: seq<string>)
    ensures |names| == |cs| && forall k :: 0 <= k < |cs| ==> names[k] == cs[k].name
  {
    seq(|cs|, k requires 0 <= k < |cs| => cs[k].name)
  }

  /** The ranked candidates `smart_recommend` cuts its answer from. */
  function RankedCandidates(category: string, cart: seq<CartEntry>): seq<Candidate> {
    SortByNearness(CandidatesOver(Complementary(category), cart, AveragePrice(cart)))
  }

  /** `smart_recommend(category, cart, top_k)`. */
  function Recommend(category: string, cart: seq<CartEntry>, topK: nat): seq<string> {
    var ranked := RankedCandidates(category, cart);
    Names(ranked[..if topK < |ranked| then topK else |ranked|])
  }

  /** What `smart_recommend` promises: at most `top_k` names, each an in-stock item of
      a complementary category that is not in the cart, ordered nearest-to-average
      first; and no candidate left out is nearer the average than one that was picked. */
  lemma RecommendProperties(category: string, cart: seq<CartEntry>, topK: nat)
    ensures var r := Recommend(category, cart, topK);
      && |r| <= topK
      && (forall n :: n in r ==> exists cat, it :: cat in Complementary(category) && it in InventoryOf(cat)
                                   && it.stock > 0 && !InCart(cart, n) && it.name == n)
    ensures var ranked := RankedCandidates(category, cart);
      var k := |Recommend(category, cart, topK)|;
      && NearestFirst(ranked[..k])
      && (forall i, j :: 0 <= i < k <= j < |ranked| ==> ranked[i].distance <= ranked[j].distance)
    ensures var ranked := RankedCandidates(category, cart);
      var avg := AveragePrice(cart);
      forall i, c :: (0 <= i < |Recommend(category, cart, topK)| && c in CandidatesOver(Complementary(category), cart, avg)
                      && c !in ranked[..|Recommend(category, cart, topK)|]) ==> ranked[i].distance <= c.distance
  {
    var cands := CandidatesOver(Complementary(category), cart, AveragePrice(cart));
    var ranked := RankedCandidates(category, cart);
    var k := |Recommend(category, cart, topK)|;
    SortByNearnessSorts(cands);
    SortByNearnessPermutes(cands);
    RecommendSound(category, cart, topK);
    PrefixNearestFirst(ranked, k);
    NoneLeftNearer(ranked, k, cands);
  }

  /** Every in-stock item of the listed items that is not in the cart is a candidate. */
  lemma {:induction false} CandidatesInComplete(items: seq<Item>, cart: seq<CartEntry>, avg: real, it: Item)
    requires it in items && it.stock > 0 && !InCart(cart, it.name)
    ensures Candidate(it.name, it.price, Abs(it.price as real - avg)) in CandidatesIn(items, cart, avg)
  {
    var init := items[..|items| - 1];
    if it != items[|items| - 1] {
      assert items == init + [items[|items| - 1]];
      CandidatesInComplete(init, cart, avg, it);
    }
  }

  /** Every in-stock item of the listed categories that is not in the cart is a
      candidate. */
  lemma {:induction false} CandidatesOverComplete(cats: seq<string>, cart: seq<CartEntry>, avg: real, cat: string, it: Item)
    requires cat in cats && it in InventoryOf(cat) && it.stock > 0 && !InCart(cart, it.name)
    ensures Candidate(it.name, it.price, Abs(it.price as real - avg)) in CandidatesOver(cats, cart, avg)
  {
    var init := cats[..|cats| - 1];
    if cat == cats[|cats| - 1] {
      CandidatesInComplete(InventoryOf(cat), cart, avg, it);
    } else {
      assert cats == init + [cats[|cats| - 1]];
      CandidatesOverComplete(init, cart, avg, cat, it);
    }
  }

  /** `smart_recommend` returns as many names as it may: `top_k`, or every candidate
      when there are fewer. */
  lemma RecommendCount(category: string, cart: seq<CartEntry>, topK: nat)
    ensures var n := |CandidatesOver(Complementary(category), cart, AveragePrice(cart))|;
      |Recommend(category, cart, topK)| == if topK < n then topK else n
  {
    var cands := CandidatesOver(Complementary(category), cart, AveragePrice(cart));
    SortByNearnessPermutes(cands);
    assert |SortByNearness(cands)| == |multiset(SortByNearness(cands))| == |multiset(cands)| == |cands|;
  }

  /** Whenever a complementary category has an in-stock item that is not in the cart,
      something is recommended (for `top_k` at least 1); with soundness this makes
      "something is recommended" exactly "such an item exists". */
  lemma RecommendFindsAvailable(category: string, cart: seq<CartEntry>, topK: nat, cat: string, it: Item)
    requires topK >= 1
    requires cat in Complementary(category) && it in InventoryOf(cat) && it.stock > 0 && !InCart(cart, it.name)
    ensures Recommend(category, cart, topK) != []
  {
    CandidatesOverComplete(Complementary(category), cart, AveragePrice(cart), cat, it);
    RecommendCount(category, cart, topK);
  }

  /** Every recommended name is an in-stock item of a complementary category that is
      not in the cart. */
  lemma RecommendSound(category: string, cart: seq<CartEntry>, topK: nat)
    ensures var r := Recommend(category, cart, topK);
      && |r| <= topK
      && (forall n :: n in r ==> exists cat, it :: cat in Complementary(category) && it in InventoryOf(cat)
                                   && it.stock > 0 && !InCart(cart, n) && it.name == n)
  {
    var cands := CandidatesOver(Complementary(category), cart, AveragePrice(cart));
    var ranked := RankedCandidates(category, cart);
    var r := Recommend(category, cart, topK);
    SortByNearnessPermutes(cands);
    CandidatesOverSound(Complementary(category), cart, AveragePrice(cart));
    forall n | n in r
      ensures exists cat, it :: cat in Complementary(category) && it in InventoryOf(cat)
                                && it.stock > 0 && !InCart(cart, n) && it.name == n
    {
      var i :| 0 <= i < |r| && r[i] == n;
      assert ranked[i] in multiset(ranked);
      assert ranked[i] in cands;
    }
  }

  /** A prefix of a nearest-first list is nearest-first and no farther than the rest. */
  lemma PrefixNearestFirst(ranked: seq<Candidate>, k: nat)
    requires NearestFirst(ranked) && k <= |ranked|
    ensures NearestFirst(ranked[..k])
    ensures forall i, j :: 0 <= i < k <= j < |ranked| ==> ranked[i].distance <= ranked[j].distance
  {
  }

  /** No candidate left out of a nearest-first prefix is nearer than one kept. */
  lemma NoneLeftNearer(ranked: seq<Candidate>, k: nat, cands: seq<Candidate>)
    requires NearestFirst(ranked) && k <= |ranked| && multiset(ranked) == multiset(cands)
    ensures forall i, c :: 0 <= i < k && c in cands && c !in ranked[..k] ==> ranked[i].distance <= c.distance
  {
    forall i, c | 0 <= i < k && c in cands && c !in ranked[..k]
      ensures ranked[i].distance <= c.distance
    {
      assert c in multiset(ranked);
      assert ranked == ranked[..k] + ranked[k..];
      assert c in ranked[k..];
      var m :| 0 <= m < |ranked[k..]| && ranked[k..][m] == c;
      assert ranked[k + m] == c;
    }
  }


  /** `smart_recommend`: gathers the candidates in two nested loops, ranks them and
      returns the names of the first `top_k`. */
  method SmartRecommend(category: string, cart: seq<CartEntry>, topK: nat) returns (names: seq<string>)
    ensures names == Recommend(category, cart, topK)
  {
    var candidates := GatherCandidates(Complementary(category), cart, AveragePrice(cart));
    var ranked := RankCandidates(candidates);
    var n := if topK < |ranked| then topK else |ranked|;
    names := Names(ranked[..n]);
  }

  /** The outer loop, over the complementary categories. */
  method GatherCandidates(cats: seq<string>, cart: seq<CartEntry>, avg: real) returns (candidates: seq<Candidate>)
    ensures candidates == CandidatesOver(cats, cart, avg)
  {
    candidates := [];
    var i := 0;
    while i < |cats|
      invariant 0 <= i <= |cats|
      invariant candidates == CandidatesOver(cats[..i], cart, avg)
    {
      var more := GatherFrom(InventoryOf(cats[i]), cart, avg);
      candidates := candidates + more;
      assert cats[..i + 1][..i] == cats[..i];
      i := i + 1;
    }
    assert cats[..i] == cats;
  }

  /** The inner loop, over one category's items. */
  method GatherFrom(items: seq<Item>, cart: seq<CartEntry>, avg: real) returns (candidates: seq<Candidate>)
    ensures candidates == CandidatesIn(items, cart, avg)
  {
    candidates := [];
    var j := 0;
    while j < |items|
      invariant 0 <= j <= |items|
      invariant candidates == CandidatesIn(items[..j], cart, avg)
    {
      var it := items[j];
      assert items[..j + 1][..j] == items[..j];
      if it.stock > 0 && !InCart(cart, it.name) {
        candidates := candidates + [Candidate(it.name, it.price, Abs(it.price as real - avg))];
      }
      j := j + 1;
    }
    assert items[..j] == items;
  }

  /** The sort, one insertion at a time. */
  method RankCandidates(candidates: seq<Candidate>) returns (ranked: seq<Candidate>)
    ensures ranked == SortByNearness(candidates)
  {
    ranked := [];
    var k := 0;
    while k < |candidates|
      invariant 0 <= k <= |candidates|
      invariant ranked == SortByNearness(candidates[..k])
    {
      assert candidates[..k + 1][..k] == candidates[..k];
      ranked := Insert(ranked, candidates[k]);
      k := k + 1;
    }
    assert candidates[..k] == candidates;
  }

  // ---------------------------------------------------------------------------
  // The nodes

  predicate MentionsCategory(text: string, cat: string)
    requires cat != ""
  {
    Contains(text, cat) || Contains(text, cat[..|cat| - 1])
  }

  /** The first category whose name, or its name less the last letter, occurs in
      the text. */
  function FirstCategory(text: string): (r: Option<string>)
    ensures r.Some? ==> r.value in Categories && MentionsCategory(text, r.value)
    ensures r.None? ==> forall cat :: cat in Categories ==> !MentionsCategory(text, cat)
  {
    match FirstWhere(Categories, (cat: string) => cat != "" && MentionsCategory(text, cat))
    case None => None
    case Some(k) => Some(Categories[k])
  }

  /** The category at index `i` is the first one the text mentions. */
  lemma FirstCategoryAt(text: string, i: nat)
    requires i < |Categories| && MentionsCategory(text, Categories[i])
    requires forall j :: 0 <= j < i ==> !MentionsCategory(text, Categories[j])
    ensures FirstCategory(text) == Some(Categories[i])
  {
    var found := FirstWhere(Categories, (cat: string) => cat != "" && MentionsCategory(text, cat));
    assert found.Some?;
    assert found.value == i;
  }

  /** The loop of `ask_product` over the categories. */
  method FindCategory(text: string) returns (found: Option<string>)
    ensures found == FirstCategory(text)
  {
    var i := 0;
    while i < |Categories|
      invariant 0 <= i <= |Categories|
      invariant forall j :: 0 <= j < i ==> !MentionsCategory(text, Categories[j])
    {
      var cat := Categories[i];
      if Contains(text, cat) || Contains(text, cat[..|cat| - 1]) {
        FirstCategoryAt(text, i);
        return Some(cat);
      }
      i := i + 1;
    }
    return None;
  }

  /** `ask_product`: the first category the normalised input names becomes the
      category and the bot lists its in-stock products; otherwise it asks again. */
  function AskProductNode(s: ChatState): ChatState {
    AskProductIn(s, Norm(s.userInput))
  }

  /** `ask_product` on the normalised input `text`. */
  function AskProductIn(s: ChatState, text: string): ChatState {
    match FirstCategory(text)
    case Some(cat) => s.(category := cat, response := ShowProducts(cat), step := SelectProduct)
    case None => s.(response := AskCategory)
  }

  /** A category the text names is chosen, the first such in catalogue order, and
      its product list shown; a text naming none only gets the question again. */
  lemma AskProductPicksMentioned(s: ChatState, text: string)
    ensures var r := AskProductIn(s, text);
      && ((exists cat :: cat in Categories && MentionsCategory(text, cat)) ==>
            && r == s.(category := r.category, response := ShowProducts(r.category), step := SelectProduct)
            && r.category in Categories && MentionsCategory(text, r.category)
            && exists j :: 0 <= j < |Categories| && Categories[j] == r.category &&
                 forall i :: 0 <= i < j ==> !MentionsCategory(text, Categories[i]))
      && ((forall cat :: cat in Categories ==> !MentionsCategory(text, cat)) ==>
            r == s.(response := AskCategory))
  {
    var found := FirstWhere(Categories, (cat: string) => cat != "" && MentionsCategory(text, cat));
    if found.Some? {
      var k := found.value;
      assert FirstCategory(text) == Some(Categories[k]);
    }
  }

  /** `select_product`: the input is the product; its price is that of the first item
      of the category with that exact name, or the fallback drawn at random. */
  function SelectProductNode(s: ChatState, fallbackPrice: int): (r: ChatState)
    requires s.category in Categories
    ensures r.step == SelectSize && r.product == s.userInput
    ensures (exists it :: it in InventoryOf(s.category) && it.name == s.userInput)
            ==> exists it :: it in InventoryOf(s.category) && it.name == s.userInput && r.price == it.price
    ensures (forall it :: it in InventoryOf(s.category) ==> it.name != s.userInput) ==> r.price == fallbackPrice
    ensures r == s.(product := r.product, price := r.price, response := AskSize, step := SelectSize)
  {
    s.(product := s.userInput, price := PriceIn(InventoryOf(s.category), s.userInput, fallbackPrice),
       response := AskSize, step := SelectSize)
  }

  /** The price of the first item with this name, or the fallback. */
  function PriceIn(items: seq<Item>, name: string, fallbackPrice: int): int {
    match FirstWhere(items, (it: Item) => it.name == name)
    case None => fallbackPrice
    case Some(k) => items[k].price
  }

  /** The generator expression of `select_product`, as a loop. */
  method FindPrice(items: seq<Item>, name: string, fallbackPrice: int) returns (price: int)
    ensures price == PriceIn(items, name, fallbackPrice)
  {
    var i := 0;
    while i < |items|
      invariant 0 <= i <= |items|
      invariant forall j :: 0 <= j < i ==> items[j].name != name
    {
      if items[i].name == name {
        return items[i].price;
      }
      i := i + 1;
    }
    return fallbackPrice;
  }

  /** `select_size`: the upper-cased input is the size. */
  function SelectSizeNode(s: ChatState): ChatState {
    s.(size := Upper(s.userInput), response := AskAddToCart, step := CartDecision)
  }

  /** `cart_decision`: anything but "yes" goes back to choosing a product with the cart
      as it was. "yes" adds the product at its price and goes on to the
      recommendations exactly when there are some (which replace the remembered
      ones), else to "shop more". */
  function CartDecisionNode(s: ChatState): ChatState {
    CartDecided(s, SaysYes(s.userInput))
  }

  /** `cart_decision` once the answer is known. */
  function CartDecided(s: ChatState, yes: bool): ChatState {
    if yes then CartAdded(s, Recommend(s.category, s.cart + [CartEntry(s.product, s.size, s.price)], 2))
    else s.(response := AskWhatElse, step := AskProduct)
  }

  /** The product added, given what `smart_recommend` returns for the grown cart. */
  function CartAdded(s: ChatState, recs: seq<string>): ChatState {
    var cart := s.cart + [CartEntry(s.product, s.size, s.price)];
    if recs != [] then
      s.(cart := cart, cartTotal := s.cartTotal + s.price, recommendedItems := recs,
         response := AddedWithRecommendations(recs), step := Recommendation)
    else
      s.(cart := cart, cartTotal := s.cartTotal + s.price, response := AddedAskShopMore, step := ShopMore)
  }

  /** What `cart_decision` does with a "yes" and with anything else. */
  lemma CartDecisionAddsProduct(s: ChatState)
    ensures var r := CartDecisionNode(s);
      !SaysYes(s.userInput) ==> r == s.(response := AskWhatElse, step := AskProduct)
    ensures var r := CartDecisionNode(s);
      SaysYes(s.userInput) ==>
      var cart := s.cart + [CartEntry(s.product, s.size, s.price)];
      var recs := Recommend(s.category, cart, 2);
      && r.cart == cart && r.cartTotal == s.cartTotal + s.price
      && (r.step == Recommendation <==> recs != [])
      && (r.step == ShopMore <==> recs == [])
      && r.recommendedItems == (if recs != [] then recs else s.recommendedItems)
      && r.paymentAttempts == s.paymentAttempts && r.category == s.category
  {
  }

  /** `recommendation`: "yes" with something recommended adds the first recommendation
      in size M at its inventory price (999 when it has none); either way the bot asks
      whether to shop more. */
  function RecommendationNode(s: ChatState): ChatState {
    RecommendationDecided(s, SaysYes(s.userInput))
  }

  /** The price a recommended item is added at: its price in whichever category lists
      it, or 999. */
  function RecommendedPrice(item: string): int {
    match PriceAnywhere(item) case None => 999 case Some(p) => p
  }

  /** `recommendation` once the answer is known. */
  function RecommendationDecided(s: ChatState, yes: bool): (r: ChatState) {
    if yes && s.recommendedItems != [] then
      var item := s.recommendedItems[0];
      var price := RecommendedPrice(item);
      s.(cart := s.cart + [CartEntry(item, "M", price)], cartTotal := s.cartTotal + price,
         response := RecommendedAdded(item), step := ShopMore)
    else
      s.(response := RecommendationSkipped, step := ShopMore)
  }

  /** The cart grows exactly when the customer says "yes" and something was
      recommended, and then by the first recommendation in size M, at its price in
      whichever category lists it or at 999; the total grows by that price; the bot
      always asks about shopping more and nothing else changes. */
  lemma RecommendationAddsFirst(s: ChatState, yes: bool)
    ensures var r := RecommendationDecided(s, yes);
      && r.step == ShopMore
      && (|r.cart| == |s.cart| + 1 <==> yes && s.recommendedItems != [])
      && r.cart[..|s.cart|] == s.cart
      && r == s.(cart := r.cart, cartTotal := r.cartTotal, response := r.response, step := ShopMore)
    ensures var r := RecommendationDecided(s, yes);
      yes && s.recommendedItems != [] ==>
        && r.cart[|s.cart|].product == s.recommendedItems[0] && r.cart[|s.cart|].size == "M"
        && (PriceAnywhere(s.recommendedItems[0]).Some? ==>
              r.cart[|s.cart|].price == PriceAnywhere(s.recommendedItems[0]).value)
        && (PriceAnywhere(s.recommendedItems[0]).None? ==> r.cart[|s.cart|].price == 999)
        && r.cartTotal == s.cartTotal + r.cart[|s.cart|].price
        && r.response == RecommendedAdded(s.recommendedItems[0])
    ensures var r := RecommendationDecided(s, yes);
      !(yes && s.recommendedItems != []) ==>
        r.cart == s.cart && r.cartTotal == s.cartTotal && r.response == RecommendationSkipped
  {
  }

  /** `shop_more`: "yes" goes back to choosing a product, anything else shows the cart
      and the offers. */
  function ShopMoreNode(s: ChatState): ChatState {
    ShopMoreDecided(s, SaysYes(s.userInput))
  }

  /** `shop_more` once the answer is known. */
  function ShopMoreDecided(s: ChatState, yes: bool): ChatState {
    if yes then s.(step := AskProduct, response := AskNext)
    else s.(response := CartSummary(s.cart, s.cartTotal), step := ApplyOffer)
  }

  /** At `shop_more`, "yes" goes back to choosing a product; any other answer shows the
      cart with its total and moves on to the offers. Either way the cart, the total and
      everything else but the reply and the step stay as they were. */
  lemma ShopMoreMovesOn(s: ChatState)
    ensures var r := ShopMoreNode(s);
      && r == s.(response := r.response, step := r.step)
      && (SaysYes(s.userInput) ==> r.step == AskProduct && r.response == AskNext)
      && (!SaysYes(s.userInput) ==> r.step == ApplyOffer && r.response == CartSummary(s.cart, s.cartTotal))
  {
  }

  /** The fixed offer table: "1" saves 300, "2" saves 250, "3" saves 200, anything
      else nothing. */
  function OfferDiscount(choice: string): (d: int)
    ensures d in {0, 200, 250, 300}
    ensures d == 300 <==> choice == "1"
    ensures d == 250 <==> choice == "2"
    ensures d == 200 <==> choice == "3"
  {
    if choice == "1" then 300 else if choice == "2" then 250 else if choice == "3" then 200 else 0
  }

  /** `apply_offer`: the discount comes from the table and the final price is the cart
      total less the discount. */
  function ApplyOfferNode(s: ChatState): (r: ChatState)
    ensures r.discount == OfferDiscount(s.userInput)
    ensures r.finalPrice == s.cartTotal - r.discount && r.finalPrice + r.discount == r.cartTotal
    ensures r == s.(discount := r.discount, finalPrice := r.finalPrice, response := FinalAmount(r.finalPrice), step := Payment)
  {
    var discount := OfferDiscount(s.userInput);
    s.(discount := discount, finalPrice := s.cartTotal - discount, response := FinalAmount(s.cartTotal - discount),
       step := Payment)
  }

  /** `payment`: "store" in any case goes to support without counting an attempt; any
      other input counts one online attempt, which on success goes to support, and on
      failure stays at payment only after the first attempt. */
  function PaymentNode(s: ChatState, succeeds: bool): (r: ChatState)
    ensures Lower(s.userInput) == "store" ==> r == s.(response := PayAtStore, step := Support)
    ensures Lower(s.userInput) != "store" ==>
      && r.paymentAttempts == s.paymentAttempts + 1
      && (r.step == Payment <==> !succeeds && s.paymentAttempts + 1 == 1)
      && (r.step != Payment ==> r.step == Support)
      && r == s.(paymentAttempts := r.paymentAttempts, response := r.response, step := r.step)
  {
    PaymentDecided(s, Lower(s.userInput) == "store", succeeds)
  }

  /** `payment` once it is known whether the customer chose the store. */
  function PaymentDecided(s: ChatState, atStore: bool, succeeds: bool): ChatState {
    if atStore then s.(response := PayAtStore, step := Support)
    else
      var attempts := s.paymentAttempts + 1;
      if succeeds then s.(paymentAttempts := attempts, response := PaymentSucceeded, step := Support)
      else if attempts == 1 then s.(paymentAttempts := attempts, response := PaymentFailedRetry, step := Payment)
      else s.(paymentAttempts := attempts, response := PaymentFailedTwice, step := Support)
  }

  /** `support`: the order is completed and the bot asks for a rating. */
  function SupportNode(s: ChatState): ChatState {
    s.(response := OrderCompleted(s.cart, s.cartTotal, s.discount, s.finalPrice), step := Csat)
  }

  /** `csat`: thanks for the rating and ends the conversation. */
  function CsatNode(s: ChatState): ChatState {
    s.(response := ThanksForRating(s.userInput), step := End)
  }

  /** `process_message`: records the input and runs the node of the current step; the
      end step has no node. */
  function Process(s: ChatState, input: string, fallbackPrice: int, succeeds: bool): ChatState
    requires Consistent(s)
  {
    RunNode(s.(userInput := input), fallbackPrice, succeeds)
  }

  /** The node of the current step, on a state that already holds the input. */
  function RunNode(t: ChatState, fallbackPrice: int, succeeds: bool): ChatState
    requires t.step == SelectProduct ==> t.category in Categories
  {
    match t.step
    case AskProduct => AskProductNode(t)
    case SelectProduct => SelectProductNode(t, fallbackPrice)
    case SelectSize => SelectSizeNode(t)
    case CartDecision => CartDecisionNode(t)
    case Recommendation => RecommendationNode(t)
    case ShopMore => ShopMoreNode(t)
    case ApplyOffer => ApplyOfferNode(t)
    case Payment => PaymentNode(t, succeeds)
    case Support => SupportNode(t)
    case Csat => CsatNode(t)
    case End => t
  }

  /** The cart of `r` is that of `s`, or that of `s` with one more entry whose price
      is added to the total. */
  predicate CartKeptOrGrown(s: ChatState, r: ChatState) {
    || (r.cart == s.cart && r.cartTotal == s.cartTotal)
    || (&& |r.cart| == |s.cart| + 1 && r.cart == s.cart + [r.cart[|s.cart|]]
        && r.cartTotal == s.cartTotal + r.cart[|s.cart|].price)
  }

  /** The input, the cart, its total and the attempt counter are as they were. */
  predicate KeepsCart(s: ChatState, r: ChatState) {
    r.userInput == s.userInput && r.cart == s.cart && r.cartTotal == s.cartTotal
    && r.paymentAttempts == s.paymentAttempts
  }

  // One lemma per node: each keeps the state consistent and says what it may change.

  lemma AskProductKeeps(t: ChatState, text: string)
    requires Consistent(t) && t.step == AskProduct
    ensures Consistent(AskProductIn(t, text)) && KeepsCart(t, AskProductIn(t, text))
  {
  }

  lemma SelectProductKeeps(t: ChatState, fallbackPrice: int)
    requires Consistent(t) && t.step == SelectProduct
    ensures Consistent(SelectProductNode(t, fallbackPrice)) && KeepsCart(t, SelectProductNode(t, fallbackPrice))
  {
  }

  lemma CartAddedKeeps(t: ChatState, recs: seq<string>)
    requires Consistent(t) && t.step == CartDecision
    ensures var r := CartAdded(t, recs);
      && Consistent(r) && CartKeptOrGrown(t, r)
      && r.userInput == t.userInput && r.paymentAttempts == t.paymentAttempts
  {
    var e := CartEntry(t.product, t.size, t.price);
    SumPricesAppend(t.cart, e);
    assert (t.cart + [e])[|t.cart|] == e;
  }

  lemma RecommendationKeeps(t: ChatState, yes: bool)
    requires Consistent(t) && t.step == Recommendation
    ensures var r := RecommendationDecided(t, yes);
      && Consistent(r) && CartKeptOrGrown(t, r)
      && r.userInput == t.userInput && r.paymentAttempts == t.paymentAttempts
  {
    if yes && t.recommendedItems != [] {
      var r := RecommendationDecided(t, yes);
      var e := r.cart[|t.cart|];
      SumPricesAppend(t.cart, e);
    }
  }

  lemma PaymentKeeps(t: ChatState, atStore: bool, succeeds: bool)
    requires Consistent(t) && t.step == Payment
    ensures var r := PaymentDecided(t, atStore, succeeds);
      && Consistent(r) && r.userInput == t.userInput && r.cart == t.cart && r.cartTotal == t.cartTotal
      && r.paymentAttempts in {t.paymentAttempts, t.paymentAttempts + 1}
  {
  }

  /** What one message can change: the input is recorded; the cart only ever grows by
      one entry, whose price is added to the total, and only at the add-to-cart and
      recommendation steps; the attempt counter only ever grows by one, and only at
      the payment step; at the end step nothing else changes. The new state is
      consistent again, so from the initial state the total always matches the cart
      and at most two online payments are ever tried. */
  lemma ProcessEffects(s: ChatState, input: string, fallbackPrice: int, succeeds: bool)
    requires Consistent(s)
    ensures var r := Process(s, input, fallbackPrice, succeeds);
      && Consistent(r)
      && r.userInput == input
      && (s.step == End ==> r == s.(userInput := input))
      && (s.step in {CartDecision, Recommendation} ==> CartKeptOrGrown(s, r))
      && (s.step !in {CartDecision, Recommendation} ==> r.cart == s.cart && r.cartTotal == s.cartTotal)
      && (s.step != Payment ==> r.paymentAttempts == s.paymentAttempts)
      && (s.step == Payment ==> r.paymentAttempts in {s.paymentAttempts, s.paymentAttempts + 1})
  {
    var t := s.(userInput := input);
    var r := Process(s, input, fallbackPrice, succeeds);
    match s.step {
      case AskProduct =>
        assert r == AskProductIn(t, Norm(input));
        AskProductKeeps(t, Norm(input));
      case SelectProduct =>
        assert r == SelectProductNode(t, fallbackPrice);
        SelectProductKeeps(t, fallbackPrice);
      case CartDecision =>
        if SaysYes(input) {
          var recs := Recommend(t.category, t.cart + [CartEntry(t.product, t.size, t.price)], 2);
          assert r == CartAdded(t, recs);
          CartAddedKeeps(t, recs);
        } else {
          assert r == t.(response := AskWhatElse, step := AskProduct);
        }
      case Recommendation =>
        assert r == RecommendationDecided(t, SaysYes(input));
        RecommendationKeeps(t, SaysYes(input));
      case SelectSize =>
        assert r == SelectSizeNode(t);
      case ShopMore =>
        assert r == ShopMoreDecided(t, SaysYes(input));
      case ApplyOffer =>
        assert r == ApplyOfferNode(t);
      case Payment =>
        assert r == PaymentDecided(t, Lower(input) == "store", succeeds);
        PaymentKeeps(t, Lower(input) == "store", succeeds);
      case Support =>
        assert r == SupportNode(t);
      case Csat =>
        assert r == CsatNode(t);
      case End =>
        assert r == t;
    }
  }

  /** Every message keeps the state consistent. */
  lemma ProcessKeepsConsistent(s: ChatState, input: string, fallbackPrice: int, succeeds: bool)
    requires Consistent(s)
    ensures Consistent(Process(s, input, fallbackPrice, succeeds))
  {
    ProcessEffects(s, input, fallbackPrice, succeeds);
  }

  /** After payment the conversation runs support, then the rating, then ends and
      stays ended whatever is said. */
  lemma SupportRunsToEnd(s: ChatState, a: string, b: string, c: string, fallbackPrice: int, succeeds: bool)
    requires Consistent(s) && s.step == Support
    ensures var s1 := Process(s, a, fallbackPrice, succeeds);
      && s1.step == Csat && Consistent(s1)
      && var s2 := Process(s1, b, fallbackPrice, succeeds);
      && s2.step == End && Consistent(s2)
      && Process(s2, c, fallbackPrice, succeeds) == s2.(userInput := c)
  {
    ProcessKeepsConsistent(s, a, fallbackPrice, succeeds);
    ProcessKeepsConsistent(Process(s, a, fallbackPrice, succeeds), b, fallbackPrice, succeeds);
  }

  // ---------------------------------------------------------------------------
  // The session object

  /** The state dictionary of one conversation. */
  class ChatSession {
    var userInput: string
    var step: Step
    var category: string
    var product: string
    var size: string
    var cart: seq<CartEntry>
    var cartTotal: int
    var discount: int
    var finalPrice: int
    var paymentAttempts: int
    var recommendedItems: seq<string>
    var response: Reply
    var price: int

    function Snapshot(): ChatState
      reads this
    {
      ChatState(userInput, step, category, product, size, cart, cartTotal, discount, finalPrice,
                paymentAttempts, recommendedItems, response, price)
    }

    ghost predicate Valid()
      reads this
    {
      Consistent(Snapshot())
    }

    /** `create_initial_state`. */
    constructor ()
      ensures Snapshot() == InitialState() && Valid()
    {
      userInput, step, category, product, size := "", AskProduct, "", "", "";
      cart, cartTotal, discount, finalPrice := [], 0, 0, 0;
      paymentAttempts, recommendedItems, response, price := 0, [], NoReply, 0;
    }

    /** `process_message`, with the fallback price and the payment outcome that the
        source draws at random passed in. */
    method ProcessMessage(input: string, fallbackPrice: int, succeeds: bool)
      requires Valid() && fallbackPrice in {1499, 1999, 2499}
      modifies this
      ensures Valid()
      ensures Snapshot() == Process(old(Snapshot()), input, fallbackPrice, succeeds)
    {
      ghost var before := Snapshot();
      userInput := input;
      RunNodeStep(fallbackPrice, succeeds);
      ProcessKeepsConsistent(before, input, fallbackPrice, succeeds);
    }

    /** The node of the current step. */
    method RunNodeStep(fallbackPrice: int, succeeds: bool)
      requires step == SelectProduct ==> category in Categories
      modifies this
      ensures Snapshot() == RunNode(old(Snapshot()), fallbackPrice, succeeds)
    {
      match step {
      case AskProduct => AskProductStep();
      case SelectProduct => SelectProductStep(fallbackPrice);
      case SelectSize => size, response, step := Upper(userInput), AskAddToCart, CartDecision;
      case CartDecision => CartDecisionStep();
      case Recommendation => RecommendationStep();
      case ShopMore => ShopMoreStep();
      case ApplyOffer => ApplyOfferStep();
      case Payment => PaymentStep(succeeds);
      case Support => response, step := OrderCompleted(cart, cartTotal, discount, finalPrice), Csat;
      case Csat => response, step := ThanksForRating(userInput), End;
      case End =>
      }
    }

    method AskProductStep()
      modifies this
      ensures Snapshot() == AskProductNode(old(Snapshot()))
    {
      AskProductOn(Norm(userInput));
    }

    /** `ask_product` on the normalised input. */
    method AskProductOn(text: string)
      modifies this
      ensures Snapshot() == AskProductIn(old(Snapshot()), text)
    {
      var found := FindCategory(text);
      match found {
        case Some(cat) =>
          category, response, step := cat, ShowProducts(cat), SelectProduct;
        case None =>
          response := AskCategory;
      }
    }

    method SelectProductStep(fallbackPrice: int)
      requires category in Categories
      modifies this
      ensures Snapshot() == SelectProductNode(old(Snapshot()), fallbackPrice)
    {
      var p := FindPrice(InventoryOf(category), userInput, fallbackPrice);
      product, price, response, step := userInput, p, AskSize, SelectSize;
    }

    method CartDecisionStep()
      modifies this
      ensures Snapshot() == CartDecisionNode(old(Snapshot()))
    {
      CartDecide(SaysYes(userInput));
    }

    method CartDecide(yes: bool)
      modifies this
      ensures Snapshot() == CartDecided(old(Snapshot()), yes)
    {
      if !yes {
        response, step := AskWhatElse, AskProduct;
        return;
      }
      var recs := SmartRecommend(category, cart + [CartEntry(product, size, price)], 2);
      AddWithRecommendations(recs);
    }

    method AddWithRecommendations(recs: seq<string>)
      modifies this
      ensures Snapshot() == CartAdded(old(Snapshot()), recs)
    {
      var newCart := cart + [CartEntry(product, size, price)];
      if recs != [] {
        cart, cartTotal, recommendedItems, response, step :=
          newCart, cartTotal + price, recs, AddedWithRecommendations(recs), Recommendation;
      } else {
        cart, cartTotal, response, step := newCart, cartTotal + price, AddedAskShopMore, ShopMore;
      }
    }

    method RecommendationStep()
      modifies this
      ensures Snapshot() == RecommendationNode(old(Snapshot()))
    {
      RecommendationDecide(SaysYes(userInput));
    }

    method RecommendationDecide(yes: bool)
      modifies this
      ensures Snapshot() == RecommendationDecided(old(Snapshot()), yes)
    {
      if yes && recommendedItems != [] {
        var item := recommendedItems[0];
        var p := RecommendedPrice(item);
        cart, cartTotal, response, step := cart + [CartEntry(item, "M", p)], cartTotal + p, RecommendedAdded(item), ShopMore;
      } else {
        response, step := RecommendationSkipped, ShopMore;
      }
    }

    method ShopMoreStep()
      modifies this
      ensures Snapshot() == ShopMoreNode(old(Snapshot()))
    {
      ShopMoreDecide(SaysYes(userInput));
    }

    method ShopMoreDecide(yes: bool)
      modifies this
      ensures Snapshot() == ShopMoreDecided(old(Snapshot()), yes)
    {
      if yes {
        step, response := AskProduct, AskNext;
      } else {
        response, step := CartSummary(cart, cartTotal), ApplyOffer;
      }
    }

    method ApplyOfferStep()
      modifies this
      ensures Snapshot() == ApplyOfferNode(old(Snapshot()))
    {
      var d := OfferDiscount(userInput);
      discount, finalPrice, response, step := d, cartTotal - d, FinalAmount(cartTotal - d), Payment;
    }

    method PaymentStep(succeeds: bool)
      modifies this
      ensures Snapshot() == PaymentNode(old(Snapshot()), succeeds)
    {
      PaymentDecide(Lower(userInput) == "store", succeeds);
    }

    method PaymentDecide(atStore: bool, succeeds: bool)
      modifies this
      ensures Snapshot() == PaymentDecided(old(Snapshot()), atStore, succeeds)
    {
      if atStore {
        response, step := PayAtStore, Support;
        return;
      }
      paymentAttempts := paymentAttempts + 1;
      if succeeds {
        response, step := PaymentSucceeded, Support;
      } else if paymentAttempts == 1 {
        response, step := PaymentFailedRetry, Payment;
      } else {
        response, step := PaymentFailedTwice, Support;
      }
    }
  }
}
