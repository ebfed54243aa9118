# Checkout and shopping assistants of a fashion store, in Dafny

This project models the parts of an omnichannel fashion store that decide what a
customer pays, what stock is taken and where the customer is sent next. It proves
properties of that model.

- **Dashboard** (`frontend/pages/dashboard.tsx`). The checkout view of the customer
  dashboard.
  - The page state is a class, `CheckoutPage`, holding the step, order type, payment
    method, selected offer, last reply, slots, chosen slot, kept order, attempt
    counter and cart.
  - Its handlers `handleCheckout`, `retryPayment` and `confirmSlot`, and the onClick
    handlers of the step buttons, are methods. Each is proved equal to a pure
    transition function on a `Page` snapshot.
  - The replies of the server are parameters.
  - It also covers the product filter effect, the offer toggle, and the displayed
    discount and final total.
  - The retry rule keeps the page's behaviour as written: it reads the attempt
    counter before the pending increment takes effect (`SecondFailedRetryRedirects`).
- **Agents** (`backend/ai_agents.py`). The agents behind the server:
  - inventory listing and stock check;
  - bank offers and the final price;
  - the simulated payment gateway. It is a class, since it keeps per-user, per-minute
    attempt counts.
  - delivery estimate, store pickup slots, fulfilment confirmation and shipment
    tracking.
- **ShopApi** (`backend/app.py`). The cart and checkout handlers. The database tables
  are `seq` fields of a `Db` class. The handlers:
  - `get_cart`, `add_to_cart` and `remove_from_cart`;
  - `checkout`: pricing, payment, the order row, order items, stock decrement and the
    emptied cart;
  - `retry_payment` and `confirm_pickup_slot`.
- **GroqAdapter** (`backend/ey_groq_adapter.py`). The session-memory sales adapter:
  - a class holding the session store, the in-memory inventory and the order log;
  - size normalisation and reference resolution (literal pid, ordinal, pronoun);
  - reserve and release;
  - the add-to-cart flow with its size fallback, and the checkout flow;
  - intent classification and product cards.
- **FashionChatbot** (`backend/fashion_chatbot.py`). The scripted chatbot:
  - `smart_recommend`: two nested gathering loops and a stable sort by distance to
    the average cart price;
  - every conversation node as a transition on the chat state;
  - `process_message` as a method of a `ChatSession` class.

The helper modules are:

- **Common**: `Option` and the capped percentage discount.
- **Text**: ASCII case mapping, stripping, substring search, number formatting.
- **ShopTables**: the rows of `backend/database.py`, the `Db` class and its
  invariant.

Randomness is passed to the operations as parameters:

- whether a payment succeeds;
- transaction and order-number draws;
- the fallback price of the chatbot.

The clock is a parameter too: the minute stamp, the next three dates and `now`.

## Model

| member | source | states |
|---|---|---|
| Agents.SelectedProducts | backend/ai_agents.py:89-93 | the inventory query returns exactly the products of the table that pass the optional category filter (an empty category selects all), never more rows than the table holds |
| Agents.GetInventory | backend/ai_agents.py:86-117 | one report line per selected product, in order, with its four stock levels and their sum; the category reported is the given non-empty one or "all"; the count equals the number of lines |
| Agents.StockForSize | backend/ai_agents.py:119-134 | S, L and XL (any case) read their own column; every other size falls back to the M column |
| Agents.CheckStock | backend/ai_agents.py:119-134 | "not found" exactly when the product is missing; otherwise the stock of the size's column, and available exactly when it is positive |
| Agents.AvailableOffers | backend/ai_agents.py:141-155 | exactly the active offers of the table |
| Agents.FindOffer | backend/ai_agents.py:168 | the offer returned has the id asked for; none is returned only when no offer has it |
| Agents.ApplicableOffer | backend/ai_agents.py:167-169 | an offer applies exactly when a truthy id was selected, that offer exists and the cart total reaches its minimum order |
| Agents.CalculateFinalPrice | backend/ai_agents.py:157-191 | the discount plus the final price is the cart total; no applicable offer means no discount; an applicable offer gives the capped percentage discount and reports its bank and percentage |
| Agents.FinalPriceBounds | backend/ai_agents.py:167-172 | for a non-negative total and well-formed offers, 0 ≤ discount ≤ min(total, cap) and 0 ≤ final price ≤ total |
| Common.CappedDiscount | backend/ai_agents.py:170 | the discount is the smaller of the percentage of the total and the cap |
| Common.CappedDiscountBounds | backend/ai_agents.py:170-172 | with a percentage in [0, 100] and a non-negative cap, the discount and the amount left are both between 0 and the total |
| Agents.PaymentDecision | backend/ai_agents.py:199-240 | store orders are always "store_pickup"; otherwise "success" exactly when the gateway succeeds; a failure can be retried on attempt 1 and redirects to the store from attempt 2 |
| Agents.PaymentAgent.constructor | backend/ai_agents.py:195-197 | a new agent has counted no attempts |
| Agents.PaymentAgent.NextAttempt | backend/ai_agents.py:200-206 | the attempt number of a call is one more than the attempts counted for that user and minute |
| Agents.PaymentAgent.InitiatePayment | backend/ai_agents.py:199-240 | counts the attempt for (user, minute), store orders included, and answers as `PaymentDecision` does for that attempt number |
| Agents.DeliveryDays | backend/ai_agents.py:259-268 | the days of the delivery table (Hyderabad 3, Mumbai 4, Delhi 5); any other city takes 5; always 3 to 5 |
| Agents.FindStore | backend/ai_agents.py:273-275 | the store returned has the id asked for; none only when no store has it |
| Agents.GetStoreSlots | backend/ai_agents.py:270-301 | no slots for an unknown store; otherwise nine, the three windows of each of the next three days, all naming the store |
| Agents.SlotIdInjective | backend/ai_agents.py:278-298 | two slots of one store share an id only when they are the same day and window |
| Agents.StoreSlotIdsDistinct | backend/ai_agents.py:270-301 | the nine slots offered carry pairwise distinct ids |
| Agents.ConfirmFulfillment | backend/ai_agents.py:303-326 | a missing order changes nothing; delivery moves the order to "processing"; any other type records the slot and marks it "ready_for_pickup"; no other row changes |
| Agents.StagesReached | backend/ai_agents.py:340-365 | one to four stages, the last being the stage of the order's status (confirmed, processing, shipped, delivered); an unknown status reaches only the first |
| Agents.TrackShipment | backend/ai_agents.py:333-367 | not found exactly for a missing order; otherwise the timeline is a non-empty prefix of the four stages ending at the stage of the order's status, complete exactly for "delivered", and just "Order Confirmed" for an unknown status |
| ShopApi.MergeLine | backend/app.py:312-327 | the cart rows after adding; stated by `MergeLineShape`, `MergeLineAddsQuantity` and `MergeLineKeepsLinesUnique` |
| ShopApi.MergeIntoCart | backend/app.py:312-330 | the cart table becomes `MergeLine` of the old one with the next line id, and the table invariants are kept |
| ShopApi.FindLine | backend/app.py:312-316 | the line found has the same user, product and size; none only when no line has them |
| ShopApi.MergeLineShape | backend/app.py:312-327 | a key already held keeps the row count and every row of another key; otherwise the old rows are kept in front of one new row with the next id and the requested quantity |
| ShopApi.MergeLineAddsQuantity | backend/app.py:312-327 | adding raises the quantity held for the added user, product and size by exactly the requested amount and changes no other key's quantity |
| ShopApi.MergeLineKeepsLinesUnique | backend/app.py:312-327 | adding never creates a second line for the same user, product and size |
| ShopApi.AddToCart | backend/app.py:303-330 | an unknown product is refused with the cart untouched; otherwise the cart becomes `MergeLine` of the old one (whose effects the `MergeLine…` lemmas state) and the table invariants are kept |
| ShopApi.FindOwnLine | backend/app.py:338-340 | the line found has the given id and belongs to the caller; none only when no such line exists |
| ShopApi.RemoveLineKeepsOtherCarts | backend/app.py:333-344 | deleting one user's line leaves every other user's cart exactly as it was |
| ShopApi.RemoveFromCart | backend/app.py:333-344 | only the caller's own line is deleted, else "not found" and nothing changes; every other user's cart is unchanged |
| ShopApi.LineView | backend/app.py:283-295 | a line is shown with its product's fields and subtotal = price × quantity |
| ShopApi.LineViews | backend/app.py:281-297 | one view per line, in order |
| ShopApi.SubtotalsSumToCartTotal | backend/app.py:279-298 | the cart total is the sum of the shown subtotals |
| ShopApi.GetCart | backend/app.py:277-300 | the caller's lines, in table order, with their subtotals; the total is the sum of the subtotals; the item count is the number of lines |
| ShopApi.AtLeastZero | backend/app.py:440 | `max(0, n)`: never negative, never below n, and n itself when n is non-negative |
| ShopApi.DecrementStock | backend/app.py:438-440 | the stock column named by the lower-cased size drops by the quantity, floored at 0; an unknown size changes nothing |
| ShopApi.ApplyLinesKeepsCatalog | backend/app.py:428-440 | taking stock for any lines changes stock levels only, and never makes a non-negative stock level negative |
| ShopApi.SameCatalogFindsSame | backend/app.py:428-440 | tables that agree up to stock find the same product for every id |
| ShopApi.OrderItemsFor | backend/app.py:428-436 | one order-item row per cart line; what each row holds is stated by `OrderItemsForRows` |
| ShopApi.OrderItemsForRows | backend/app.py:428-436 | each order item is its cart line, in order: the order id with the line's product, size and quantity, at its product's catalogue price |
| ShopApi.ApplyLinesKeepsLinePrice | backend/app.py:428-440 | taking stock changes no line's price and no product's existence |
| ShopApi.ApplyLinesKeepsForeignKeys | backend/app.py:428-442 | cart lines of other users still find their products after the checkout's stock is taken |
| ShopApi.RecordLines | backend/app.py:428-440 | the loop appends the lines' order items and takes their stock, as `OrderItemsFor` and `ApplyLines` say |
| ShopApi.PlaceOrderKeepsTablesValid | backend/app.py:407-442 | inserting the order, taking stock and deleting the caller's cart keeps the keys fresh and the remaining carts' products present |
| ShopApi.PlaceOrder | backend/app.py:407-442 | inserts the order row, records its items, takes their stock and empties only the caller's cart |
| ShopApi.FirstPayment | backend/app.py:402-405 | a payment through a fresh gateway is decided as attempt 1 |
| ShopApi.Checkout | backend/app.py:388-473 | empty cart: refused, nothing changes. Otherwise: order created exactly when the payment says success or store pickup; "paid" exactly on success; amounts from `CalculateFinalPrice`; stock taken; only the caller's cart emptied; delivery estimate exactly for online orders, slots otherwise; a failed payment changes nothing and can always be retried |
| ShopApi.FindOwnOrder | backend/app.py:481-483 | the order found has the given id and belongs to the caller; none only when no such order exists |
| ShopApi.RetryPayment | backend/app.py:476-498 | an unknown or foreign order: not found, nothing changes; otherwise success exactly when the order is online and the gateway succeeds, and only then is it marked paid with the new method |
| ShopApi.ConfirmPickupSlot | backend/app.py:501-507 | a missing order changes nothing; otherwise the order gets the slot and "ready_for_pickup" |
| ShopTables.Db.constructor | backend/database.py:37-91 | empty tables satisfy the table invariant |
| GroqAdapter.PidToProd | backend/ey_groq_adapter.py:29-36 | a product is found exactly for a catalogue pid, and it is that pid's entry |
| GroqAdapter.KeepAlnum | backend/ey_groq_adapter.py:86 | the result holds only ASCII letters and digits, is no longer than the input, is the input when it holds only those, and is empty when it holds none |
| GroqAdapter.KeepAlnumConcat | backend/ey_groq_adapter.py:86 | cleaning a concatenation cleans each part: with the laws above, exactly the ASCII letters and digits survive, in order |
| GroqAdapter.NormalizeSize | backend/ey_groq_adapter.py:81-87 | an empty input has no size; any size found is one of the six sizes |
| GroqAdapter.NormalizeSizeCanonical | backend/ey_groq_adapter.py:81-87 | each of the six sizes, in any case and surrounded by any text holding no ASCII letter or digit, normalises to itself |
| GroqAdapter.SizeIsShortWord | backend/ey_groq_adapter.py:81-87 | every size is at most three letters and digits |
| GroqAdapter.NewSession | backend/ey_groq_adapter.py:89-93 | a new session has empty history, cart and recommendations, and nothing remembered |
| GroqAdapter.OrderIdInjective | backend/ey_groq_adapter.py:218 | distinct positions in the order log give distinct "ORD" ids |
| GroqAdapter.LiteralPid | backend/ey_groq_adapter.py:109-113 | a pid is returned only when it is in the catalogue and written in the text; none when no catalogue pid is written |
| GroqAdapter.LiteralPidFirstInCatalog | backend/ey_groq_adapter.py:109-113 | the pid found is the first catalogue pid, in catalogue order, that the text contains |
| GroqAdapter.OrdinalPick | backend/ey_groq_adapter.py:114-119 | an ordinal pick is one of the last recommendations, chosen by an ordinal word that stands alone in the text |
| GroqAdapter.OrdinalPickFound | backend/ey_groq_adapter.py:114-119 | there is an ordinal pick exactly when some ordinal word stands alone in the text and points inside the last recommendations |
| GroqAdapter.OrdinalPickFirstInRange | backend/ey_groq_adapter.py:114-119 | the pick is the recommendation at the position of the first such ordinal, in the order first, second, third |
| GroqAdapter.ResolvePrecedence | backend/ey_groq_adapter.py:105-127 | a literal pid wins, then an ordinal, then a pronoun; a pronoun resolves to the product last mentioned when that is truthy, else to the first recommendation; the session remembers the result exactly when it is found |
| GroqAdapter.Resolve | backend/ey_groq_adapter.py:105-127 | the resolution function; its order of precedence is stated by `ResolvePrecedence` and its range by `ResolveStaysInCatalog` |
| GroqAdapter.ResolveStaysInCatalog | backend/ey_groq_adapter.py:105-127 | when the session remembers only catalogue pids, every resolved pid is in the catalogue |
| GroqAdapter.Reserved | backend/ey_groq_adapter.py:188-195 | a reservation lowers exactly (pid, size) by the quantity |
| GroqAdapter.Released | backend/ey_groq_adapter.py:197-202 | a release raises exactly (pid, size) by the quantity, a missing entry counting 0 |
| GroqAdapter.ReserveThenReleaseRestores | backend/ey_groq_adapter.py:188-202 | releasing what a successful reservation took restores the inventory exactly |
| GroqAdapter.ReservedKeepsStockNonNegative | backend/ey_groq_adapter.py:188-195 | a reservation the store can cover never makes a stock level negative |
| GroqAdapter.CheckInventory | backend/ey_groq_adapter.py:183-186 | "yes" with the quantity exactly when some is left, otherwise "no" and 0 |
| GroqAdapter.ReservingAllEmptiesSize | backend/ey_groq_adapter.py:183-195 | reserving all that is left of a size makes it read as out of stock |
| GroqAdapter.SizesToTry | backend/ey_groq_adapter.py:164-171 | the requested size is tried first, then every fallback size other than it |
| GroqAdapter.ChooseSize | backend/ey_groq_adapter.py:164-176 | the chosen size is one tried that the store covers; none only when no size tried is covered |
| GroqAdapter.ChooseSizePrefersRequested | backend/ey_groq_adapter.py:164-167 | the requested size is chosen whenever the store covers it |
| GroqAdapter.ChooseSizeAfterFailures | backend/ey_groq_adapter.py:166-176 | when all sizes tried before a fallback failed and that fallback is covered, it is chosen |
| GroqAdapter.Skip | backend/ey_groq_adapter.py:168-171 | the fallbacks kept are exactly those other than the requested size |
| GroqAdapter.SkipConcat | backend/ey_groq_adapter.py:168-171 | leaving out the requested size distributes over concatenation |
| GroqAdapter.PricedItems | backend/ey_groq_adapter.py:211-214 | one order line per cart item, in order, each priced from the catalogue |
| GroqAdapter.TotalCoversEachItem | backend/ey_groq_adapter.py:209-215 | with positive quantities and prices, the total is at least any one item's price |
| GroqAdapter.TotalNonNegative | backend/ey_groq_adapter.py:209-215 | with non-negative prices and quantities, the total is non-negative |
| GroqAdapter.PriceCart | backend/ey_groq_adapter.py:209-215 | the pricing loop yields `PricedItems` of the cart and their Σ price × qty |
| GroqAdapter.ClassifyIntent | backend/ey_groq_adapter.py:228-240 | the first keyword group found in the lower-cased message decides the intent; no keyword means "other" |
| GroqAdapter.ClassifyIgnoresCase | backend/ey_groq_adapter.py:228-240 | upper-casing a message does not change its intent |
| GroqAdapter.FormatProductCards | backend/ey_groq_adapter.py:248-254 | every card is a catalogue product's own title, subtitle and price; no more cards than pids |
| GroqAdapter.FormatProductCardsConcat | backend/ey_groq_adapter.py:248-254 | the cards of two lists are the cards of each, in order |
| GroqAdapter.FormatProductCardsDropsUnknown | backend/ey_groq_adapter.py:248-254 | an unknown pid is dropped without disturbing the other cards |
| GroqAdapter.FormatProductCardsKeepsOrder | backend/ey_groq_adapter.py:248-254 | a list of catalogue pids gets one card each, in the same order |
| GroqAdapter.Adapter.constructor | backend/ey_groq_adapter.py:17-24 | no sessions, the seeded inventory, an empty order log |
| GroqAdapter.Adapter.OrderIdsDistinct | backend/ey_groq_adapter.py:218-219 | no two orders of the log share an id |
| GroqAdapter.Adapter.StartSession | backend/ey_groq_adapter.py:89-93 | a fresh session replaces whatever was stored under the id |
| GroqAdapter.Adapter.GetSession | backend/ey_groq_adapter.py:95-99 | the stored session, untouched, or a new one that is then stored |
| GroqAdapter.Adapter.ResolveReferenceToPid | backend/ey_groq_adapter.py:105-127 | answers as `Resolve` on the session's memory and stores what it remembers |
| GroqAdapter.Adapter.ReserveInventory | backend/ey_groq_adapter.py:188-195 | succeeds exactly when the store holds at least the quantity; success applies `Reserved`, failure changes nothing |
| GroqAdapter.Adapter.ReleaseInventory | backend/ey_groq_adapter.py:197-202 | always succeeds and applies `Released` |
| GroqAdapter.Adapter.ReserveWithFallback | backend/ey_groq_adapter.py:164-176 | reserves the size `ChooseSize` picks, at most one size, or nothing |
| GroqAdapter.AddToCartOutcome | backend/ey_groq_adapter.py:158-181 | the add-to-cart outcome on values; stated by `AddToCartUnresolved` and `AddToCartResolved` |
| GroqAdapter.AddResolvedOutcome | backend/ey_groq_adapter.py:168-181 | the outcome once a pid is resolved; stated by `AddResolvedEffects` |
| GroqAdapter.Adapter.AddToCartFlow | backend/ey_groq_adapter.py:158-181 | the reply, the new sessions and the new stock are `AddToCartOutcome` of the old sessions and stock |
| GroqAdapter.AddToCartUnresolved | backend/ey_groq_adapter.py:158-163 | an unresolved reference asks for clarification and changes no stock and no cart; only the session is started if it was missing |
| GroqAdapter.AddToCartResolved | backend/ey_groq_adapter.py:158-168 | a resolved reference is remembered as the last mentioned product and the flow goes on with it and the requested size (M by default) |
| GroqAdapter.AddResolvedEffects | backend/ey_groq_adapter.py:168-181 | an item is added exactly when some size among the requested one and M, L, S, XL covers the quantity; then only that size is reserved and only this session's cart grows, by that line; otherwise nothing changes |
| GroqAdapter.Adapter.CheckoutFlow | backend/ey_groq_adapter.py:204-226 | an empty cart places nothing; otherwise one order with the next log id and the total of the priced items is logged, the cart emptied and the history noted |
| FashionChatbot.Complementary | backend/fashion_chatbot.py:27-32 | complementary categories are inventory categories |
| FashionChatbot.AvailableProducts | backend/fashion_chatbot.py:37-38 | exactly the names of the category's in-stock items |
| FashionChatbot.PriceAnywhere | backend/fashion_chatbot.py:161-164 | the price of an item of the whole inventory with that name; none only when no item has it |
| FashionChatbot.InitialState | backend/fashion_chatbot.py:255-270 | the conversation starts at the product question with an empty, consistent cart and no attempts |
| FashionChatbot.SumPricesAppend | backend/fashion_chatbot.py:131-136 | adding an entry adds its price to the sum |
| FashionChatbot.CandidatesInSound | backend/fashion_chatbot.py:48-61 | every candidate of a category is one of its in-stock items not already in the cart |
| FashionChatbot.CandidatesOverSound | backend/fashion_chatbot.py:47-61 | every candidate is an in-stock item of a complementary category not in the cart |
| FashionChatbot.InsertPermutes | backend/fashion_chatbot.py:63 | inserting adds exactly one candidate |
| FashionChatbot.InsertKeepsOrder | backend/fashion_chatbot.py:63 | inserting into a nearest-first list keeps it nearest-first |
| FashionChatbot.SortByNearnessPermutes | backend/fashion_chatbot.py:63 | the ranking is a permutation of the candidates |
| FashionChatbot.SortByNearnessSorts | backend/fashion_chatbot.py:63 | the ranking is ordered nearest to the average price first |
| FashionChatbot.CandidatesInComplete | backend/fashion_chatbot.py:48-61 | every in-stock item of a category that is not in the cart is a candidate |
| FashionChatbot.CandidatesOverComplete | backend/fashion_chatbot.py:47-61 | every in-stock item of a complementary category that is not in the cart is a candidate |
| FashionChatbot.RecommendCount | backend/fashion_chatbot.py:40-64 | exactly min(`top_k`, number of candidates) names are returned |
| FashionChatbot.RecommendFindsAvailable | backend/fashion_chatbot.py:40-64 | for `top_k` at least 1, something is recommended whenever some complementary category has an in-stock item not in the cart |
| FashionChatbot.Recommend | backend/fashion_chatbot.py:40-64 | the recommender; stated by `RecommendProperties`, `RecommendCount` and `RecommendFindsAvailable` |
| FashionChatbot.RecommendProperties | backend/fashion_chatbot.py:40-64 | at most `top_k` names, each an in-stock complementary item not in the cart, nearest first, and no left-out candidate nearer than a picked one |
| FashionChatbot.SmartRecommend | backend/fashion_chatbot.py:40-64 | the two gathering loops and the sort compute `Recommend` |
| FashionChatbot.GatherCandidates | backend/fashion_chatbot.py:47-61 | the outer loop gathers the candidates of the categories in order |
| FashionChatbot.GatherFrom | backend/fashion_chatbot.py:48-61 | the inner loop gathers one category's candidates in order |
| FashionChatbot.RankCandidates | backend/fashion_chatbot.py:63 | the insertion loop computes the stable nearest-first ranking |
| FashionChatbot.FirstCategory | backend/fashion_chatbot.py:99-100 | a category found is mentioned in the text; none only when no category is |
| FashionChatbot.FirstCategoryAt | backend/fashion_chatbot.py:99-108 | a mentioned category with no earlier mentioned one is the one chosen |
| FashionChatbot.AskProductNode | backend/fashion_chatbot.py:97-111 | the `ask_product` node on the normalised input; stated by `AskProductPicksMentioned` |
| FashionChatbot.AskProductPicksMentioned | backend/fashion_chatbot.py:97-111 | the first mentioned category is chosen and its in-stock products offered; otherwise the bot asks again and nothing else changes |
| FashionChatbot.SelectProductNode | backend/fashion_chatbot.py:113-121 | the input becomes the product, priced as the category's item of that name or else at the fallback price; then the size is asked |
| FashionChatbot.SelectSizeNode | backend/fashion_chatbot.py:123-127 | the `select_size` node; its effect on the cart and attempts is stated by `ProcessEffects` |
| FashionChatbot.CartDecisionNode | backend/fashion_chatbot.py:129-156 | the `cart_decision` node; stated by `CartDecisionAddsProduct` |
| FashionChatbot.CartDecisionAddsProduct | backend/fashion_chatbot.py:129-156 | "yes" appends the product with its size and price and adds the price to the total; anything else goes back to choosing a product with the cart unchanged |
| FashionChatbot.RecommendationNode | backend/fashion_chatbot.py:158-172 | the recommendation step always moves on to "shop more" |
| FashionChatbot.RecommendationAddsFirst | backend/fashion_chatbot.py:158-172 | the cart grows exactly on "yes" with something recommended, by the first recommendation in size M priced from the inventory or at 999, and the total by that price; otherwise only the reply changes; the bot always moves on to asking about more shopping |
| FashionChatbot.ShopMoreMovesOn | backend/fashion_chatbot.py:174-187 | "yes" goes back to the product question; anything else shows the cart with its total and goes to the offers; only the reply and the step change |
| FashionChatbot.ShopMoreNode | backend/fashion_chatbot.py:174-187 | the `shop_more` node; stated by `ShopMoreMovesOn` |
| FashionChatbot.OfferDiscount | backend/fashion_chatbot.py:189-195 | "1", "2" and "3" save 300, 250 and 200; anything else saves nothing |
| FashionChatbot.ApplyOfferNode | backend/fashion_chatbot.py:189-195 | the final price is the cart total less the chosen offer's saving |
| FashionChatbot.PaymentNode | backend/fashion_chatbot.py:197-220 | "store" goes to support with no attempt counted; otherwise one attempt is counted, success goes to support, and a failure stays at payment only after the first attempt |
| FashionChatbot.SupportNode | backend/fashion_chatbot.py:222-234 | the `support` node; stated by `SupportRunsToEnd` |
| FashionChatbot.CsatNode | backend/fashion_chatbot.py:236-240 | the `csat` node; stated by `SupportRunsToEnd` |
| FashionChatbot.Process | backend/fashion_chatbot.py:272-279 | `process_message`; stated by `ProcessEffects` and `ProcessKeepsConsistent` |
| FashionChatbot.RunNode | backend/fashion_chatbot.py:242-253 | the node map: each step runs its own node and the end step has none; stated by `ProcessEffects` |
| FashionChatbot.ProcessEffects | backend/fashion_chatbot.py:272-279 | a message is recorded; the cart grows by at most one priced entry, and only at the cart and recommendation steps; attempts grow by at most one, and only at payment; the end state changes nothing else |
| FashionChatbot.ProcessKeepsConsistent | backend/fashion_chatbot.py:242-279 | every message keeps the total equal to the cart's sum and the attempts at most two |
| FashionChatbot.SupportRunsToEnd | backend/fashion_chatbot.py:222-253 | after payment the conversation goes to support, then the rating, then ends and stays ended |
| FashionChatbot.ChatSession.constructor | backend/fashion_chatbot.py:255-270 | a session starts in the initial state |
| FashionChatbot.ChatSession.ProcessMessage | backend/fashion_chatbot.py:272-279 | the session's new state is `Process` of the old one and stays consistent |
| FashionChatbot.ChatSession.RunNodeStep | backend/fashion_chatbot.py:272-279 | updates the session as `RunNode` says for the current step |
| FashionChatbot.ChatSession.AskProductOn | backend/fashion_chatbot.py:97-111 | the category loop updates the session as `AskProductIn`, whose choice `AskProductPicksMentioned` states |
| FashionChatbot.ChatSession.SelectProductStep | backend/fashion_chatbot.py:113-121 | the price lookup loop does what `SelectProductNode` says |
| FashionChatbot.ChatSession.CartDecisionStep | backend/fashion_chatbot.py:129-156 | updates the session as `CartDecisionNode` says |
| FashionChatbot.ChatSession.RecommendationStep | backend/fashion_chatbot.py:158-172 | updates the session as `RecommendationNode` says |
| FashionChatbot.ChatSession.ShopMoreStep | backend/fashion_chatbot.py:174-187 | updates the session as `ShopMoreNode` says |
| FashionChatbot.ChatSession.ApplyOfferStep | backend/fashion_chatbot.py:189-195 | updates the session as `ApplyOfferNode` says |
| FashionChatbot.ChatSession.PaymentStep | backend/fashion_chatbot.py:197-220 | updates the session as `PaymentNode` says |
| Dashboard.Keep | frontend/pages/dashboard.tsx:160-168 | the filter keeps exactly the products that pass, never more |
| Dashboard.KeepIsSubsequence | frontend/pages/dashboard.tsx:158-171 | the kept products keep their order |
| Dashboard.KeepTwice | frontend/pages/dashboard.tsx:160-168 | filtering twice equals filtering once by both conditions |
| Dashboard.KeepConcat | frontend/pages/dashboard.tsx:160-168 | filtering distributes over concatenation |
| Dashboard.FilterProducts | frontend/pages/dashboard.tsx:158-171 | the filter effect; stated by `FilterProductsShowsMatches` and `KeepAll` |
| Dashboard.FilterProductsShowsMatches | frontend/pages/dashboard.tsx:158-171 | the shown products are exactly those in the chosen category that match the search, in catalogue order |
| Dashboard.KeepAll | frontend/pages/dashboard.tsx:158-171 | "all" with an empty search shows the whole catalogue |
| Dashboard.ToggleOffer | frontend/pages/dashboard.tsx:1157-1158 | clicking an offer selects it unless it was selected, in which case the selection is cleared |
| Dashboard.ToggleOfferTwice | frontend/pages/dashboard.tsx:1157-1158 | two clicks on an offer restore the selection exactly when nothing or that offer was selected |
| Dashboard.DisplayedDiscount | frontend/pages/dashboard.tsx:1210-1230 | no selection or an unknown offer shows no discount; otherwise the offer's capped percentage of the cart total |
| Dashboard.DisplayedTotalsBounds | frontend/pages/dashboard.tsx:1210-1258 | for a non-negative total, the displayed discount and final total lie in [0, total] and add up to it |
| Dashboard.DisplayedDiscountMatchesChargedUnlessBelowMinimum | frontend/pages/dashboard.tsx:1210-1258 | the displayed discount equals the server's except when the total is below the offer's minimum order |
| Dashboard.DisplayedDiscountIgnoresMinimumOrder | frontend/pages/dashboard.tsx:1210-1258 | a concrete cart below the minimum is shown a discount that the server does not grant |
| Dashboard.InitialPage | frontend/pages/dashboard.tsx:103-111 | the page starts at the delivery-type step with no attempts, reply or order |
| Dashboard.AfterCheckout | frontend/pages/dashboard.tsx:219-254 | success keeps the order, empties the cart and goes to the slot step for store orders or completes; failure counts one attempt and goes to the slot step exactly on a store redirect, otherwise back to payment; no reply changes nothing |
| Dashboard.RetryOrderId | frontend/pages/dashboard.tsx:262 | the retried order is the kept order when its id is truthy, else the last reply's order, else none |
| Dashboard.AfterRetry | frontend/pages/dashboard.tsx:256-282 | success completes; a failure counts one attempt and moves to the slot step only when the counter read before the increment was at least 1 |
| Dashboard.AfterConfirmSlot | frontend/pages/dashboard.tsx:284-296 | with no slot chosen or a refused request nothing changes; otherwise the checkout completes |
| Dashboard.SlotRequestOf | frontend/pages/dashboard.tsx:284-292 | a request is sent exactly when a slot is chosen |
| Dashboard.Apply | frontend/pages/dashboard.tsx:1077-1533 | one event of the checkout view; stated by `ApplyCountsFailedPayments` and the `After…` transitions |
| Dashboard.Run | frontend/pages/dashboard.tsx:1077-1533 | a sequence of events, one after the other; stated by `RunAttemptsOnlyGrow` |
| Dashboard.ApplyCountsFailedPayments | frontend/pages/dashboard.tsx:239-276 | the attempt counter moves only on a failed payment, and then by one |
| Dashboard.RunAttemptsOnlyGrow | frontend/pages/dashboard.tsx:239-276 | over any run of events the counter never decreases and grows by at most one per event |
| Dashboard.SecondFailedRetryRedirects | frontend/pages/dashboard.tsx:269-276 | with no attempt counted, a failed retry stays on payment and the next failed retry moves to the slot step |
| Dashboard.RetryAfterFailedCheckoutNamesNoOrder | frontend/pages/dashboard.tsx:239-262 | after a first checkout fails with no order kept, the Pay button retries and the retry names no order |
| Dashboard.CheckoutPage.constructor | frontend/pages/dashboard.tsx:103-111 | the page state starts as `InitialPage` |
| Dashboard.CheckoutPage.HandleCheckout | frontend/pages/dashboard.tsx:219-254 | sends the order type, payment method and offer; the new state is `AfterCheckout` |
| Dashboard.CheckoutPage.RetryPayment | frontend/pages/dashboard.tsx:256-282 | sends `RetryOrderId` and the payment method; the new state is `AfterRetry` |
| Dashboard.CheckoutPage.ConfirmSlot | frontend/pages/dashboard.tsx:284-296 | sends the slot request when a slot is chosen; the new state is `AfterConfirmSlot` |
| Dashboard.CheckoutPage.Dispatch | frontend/pages/dashboard.tsx:1077-1533 | every control of the checkout view acts only on its own step, as `Apply` says |

## Left out

- Network, database sessions and JSON. HTTP status codes are result constructors. Authentication is not modelled: the user is a parameter.
- Randomness and the clock are parameters: payment success, transaction and order-number draws, the chatbot's fallback price, the minute stamp, the next three dates and `now`. Date formatting and `estimated_date` strings are not modelled; the delivery estimate is its day count.
- The OpenAI and Groq LLM calls, `ask_llm`, `ai_generate_response` and every `ai_message` text are left out. They only choose message wording.
- The sentence-embedding and FAISS search, `recommendation_agent`, `sales_agent_handle_with_memory` and `chat_agent` are left out. They depend on a model that cannot be stated here.
- The clarification cards (`clarifying_ui_for_products`, `handle_possible_disambiguation`) are left out.
- Regex extraction of size and quantity in `add_to_cart_flow` is not modelled: the size and quantity it reads are parameters.
- The chatbot's reply texts and `generate_invoice` become reply kinds. The product lists they show are kept.
- Case mapping covers ASCII only, and so does whitespace: `Text.IsSpace`, `Strip` and `Words` know only ASCII blanks, whereas Python's `strip()` and `split()` also drop Unicode spaces such as U+00A0. So `norm("yes\u00a0")` is "yes" to the chatbot, but `SaysYes` is false for it.
- Prices and discounts are exact reals, without floating-point rounding. `toFixed(0)` display rounding is not modelled, and neither are ties in the chatbot's floating-point score.
- The adapter's re-entrant lock and concurrent requests are left out: each operation is one atomic step.
- The dashboard's `loading` flag is left out, as are async interleaving of handlers, the sidebar, `loadInitialData`, the product grid markup and the chat widget.
- The recommendation agent, returns, feedback, order history and the dashboard summary in `backend/ai_agents.py` and `backend/app.py` are left out. They are outside the checkout path.
- GroqAdapter.Adapter.ReserveInventory: requires a quantity of at least 1. Its only caller passes `max(1, qty)`. For a quantity of 0 or less with an unknown pid, the code raises a `KeyError`, and that path is not modelled.
- GroqAdapter.Adapter.AddToCartFlow: requires a quantity of at least 1, for the same reason as `ReserveInventory`; so do `GroqAdapter.AddToCartOutcome` and `GroqAdapter.AddResolvedOutcome`.
- GroqAdapter.Adapter.CheckoutFlow: the payment-failure branch is not modelled. Payment is a constant success there, so the branch is dead.
- FashionChatbot.SelectProductNode: requires the state's category to be an inventory category. Only `ask_product` sets it, and it sets only such categories.
- FashionChatbot.RunNode: carries the same requirement on the category as `SelectProductNode`, for the same reason.
- ShopApi.LineView: a line whose product is missing is shown as free. The foreign key rules this case out, and the code would fail on it.
- ShopApi.Checkout: builds a fresh `PaymentAgent` for every request, as the handler does, so the server always sees attempt 1 and never answers with a store redirect.
- ShopApi.ConfirmPickupSlot: like the handler, it does not check who owns the order.
- Dashboard.AfterCheckout: the server's rejection of a retry without an order id is not modelled. It appears only as the failed reply passed to `AfterRetry`.
- Dashboard.CheckoutPage.Dispatch: the slot list fetched after a store redirect is a parameter of the event.
