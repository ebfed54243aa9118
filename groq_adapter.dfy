/** The conversational cart engine of backend/ey_groq_adapter.py: a fixed three-shirt
    catalogue, per-session memory (history, cart, last recommendations, last product
    mentioned), a mutable size-level inventory and an order log. The module's global
    stores are the fields of one `Adapter` object. Embedding search, the language
    model and the regular-expression extraction of size and quantity are not modelled;
    the extracted size and quantity come in as parameters. Prices are whole rupees. */
module GroqAdapter {
  import opened Common
  import opened Text

  // ---------------------------------------------------------------------------
  // Catalogue

  datatype CatalogItem = CatalogItem(pid: string, title: string, desc: string, price: int)

  const Catalog: seq<CatalogItem> := [
    CatalogItem("p01", "Black Cotton Shirt", "Men's black cotton shirt", 1299),
    CatalogItem("p02", "Blue Denim Shirt", "Casual blue denim shirt", 1899),
    CatalogItem("p03", "White Linen Shirt", "Breathable linen shirt", 1499)
  ]

  const ProductIds: seq<string> := ["p01", "p02", "p03"]

  /** `pid_to_prod.get(pid)`. */
  function PidToProd(pid: string): (r: Option<CatalogItem>)
    ensures r.Some? <==> pid in ProductIds
    ensures r.Some? ==> r.value in Catalog && r.value.pid == pid
  {
    if pid == "p01" then Some(Catalog[0])
    else if pid == "p02" then Some(Catalog[1])
    else if pid == "p03" then Some(Catalog[2])
    else None
  }

  // ---------------------------------------------------------------------------
  // Sizes

  const Sizes: seq<string> := ["XS", "S", "M", "L", "XL", "XXL"]

  /** `re.sub(r"[^A-Za-z0-9]", "", s)`. */
  function KeepAlnum(s: string): (r: string)
    ensures |r| <= |s|
    ensures forall c :: c in r ==> IsAsciiAlnum(c)
    ensures (forall i :: 0 <= i < |s| ==> IsAsciiAlnum(s[i])) ==> r == s
    ensures (forall i :: 0 <= i < |s| ==> !IsAsciiAlnum(s[i])) ==> r == []
  {
    if s == [] then []
    else if IsAsciiAlnum(s[0]) then [s[0]] + KeepAlnum(s[1..])
    else KeepAlnum(s[1..])
  }

  /** Cleaning works piece by piece: with the two laws of `KeepAlnum` for text that is
      all kept or all dropped, every ASCII letter and digit survives, in order, and
      nothing else does. */
  lemma {:induction false} KeepAlnumConcat(a: string, b: string)
    ensures KeepAlnum(a + b) == KeepAlnum(a) + KeepAlnum(b)
  {
    if a != [] {
      assert (a + b)[0] == a[0] && (a + b)[1..] == a[1..] + b;
      KeepAlnumConcat(a[1..], b);
    } else {
      assert a + b == b;
    }
  }

  /** `normalize_size`: an empty input has no size; otherwise strip, upper-case, drop
      everything but letters and digits, and look the first three characters up among
      the six known sizes. */
  function NormalizeSize(s: string): (r: Option<string>)
    ensures s == "" ==> r.None?
    ensures r.Some? ==> r.value in Sizes
  {
    if s == "" then None
    else
      var cleaned := KeepAlnum(Upper(Strip(s)));
      var head := if |cleaned| <= 3 then cleaned else cleaned[..3];
      if head in Sizes then Some(head) else None
  }

  /** Each of the six sizes, written in any mix of cases and surrounded by any text
      without ASCII letters or digits (blanks, punctuation), normalises to itself. */
  lemma NormalizeSizeCanonical(size: string, written: string, pre: string, post: string)
    requires size in Sizes && Upper(written) == size
    requires NoAsciiAlnum(pre) && NoAsciiAlnum(post)
    ensures NormalizeSize(pre + written + post) == Some(size)
  {
    var x := pre + written + post;
    SizeIsShortWord(size);
    CleanIgnoresStrip(x);
    SurroundedClean(pre, written, post);
    assert |x| >= |written| == |size| > 0;
    CleanedSize(x, size);
  }

  /** A non-empty input whose cleaned form is a size normalises to that size. */
  lemma CleanedSize(x: string, size: string)
    requires x != [] && size in Sizes && KeepAlnum(Upper(Strip(x))) == size
    ensures NormalizeSize(x) == Some(size)
  {
    SizeIsShortWord(size);
  }

  /** Stripping first changes nothing once everything but letters and digits is
      dropped: blanks are never kept. */
  lemma CleanIgnoresStrip(x: string)
    ensures KeepAlnum(Upper(Strip(x))) == KeepAlnum(Upper(x))
  {
    var a, b := StripBounds(x);
    var pre, mid, post := x[..a], x[a..b], x[b..];
    calc {
      KeepAlnum(Upper(Strip(x)));
      KeepAlnum(Upper(mid));
      { SpacesAreNotAlnum(pre); SpacesAreNotAlnum(post); SurroundedClean(pre, mid, post); }
      KeepAlnum(Upper(pre + mid + post));
      { SliceThree(x, a, b); }
      KeepAlnum(Upper(x));
    }
  }

  /** Text without letters or digits around a word adds nothing to its cleaned form. */
  lemma SurroundedClean(pre: string, mid: string, post: string)
    requires NoAsciiAlnum(pre) && NoAsciiAlnum(post)
    ensures KeepAlnum(Upper(pre + mid + post)) == KeepAlnum(Upper(mid))
  {
    var up, um, uq := Upper(pre), Upper(mid), Upper(post);
    calc {
      KeepAlnum(Upper(pre + mid + post));
      { UpperConcat(pre + mid, post); UpperConcat(pre, mid); }
      KeepAlnum(up + um + uq);
      { KeepAlnumConcat(up + um, uq); KeepAlnumConcat(up, um); }
      KeepAlnum(up) + KeepAlnum(um) + KeepAlnum(uq);
      { UpperKeepsNoAsciiAlnum(pre); UpperKeepsNoAsciiAlnum(post); }
      KeepAlnum(um);
    }
  }

  lemma SizeIsShortWord(size: string)
    requires size in Sizes
    ensures |size| <= 3 && KeepAlnum(size) == size
  {
    SizesKept();
    var k :| 0 <= k < |Sizes| && Sizes[k] == size;
    if k == 0 {
      assert size == "XS";
    } else if k == 1 {
      assert size == "S";
    } else if k == 2 {
      assert size == "M";
    } else if k == 3 {
      assert size == "L";
    } else if k == 4 {
      assert size == "XL";
    } else {
      assert size == "XXL";
    }
  }

  /** Cleaning keeps each of the six sizes whole. */
  lemma SizesKept()
    ensures KeepAlnum("XS") == "XS" && KeepAlnum("S") == "S" && KeepAlnum("M") == "M"
    ensures KeepAlnum("L") == "L" && KeepAlnum("XL") == "XL" && KeepAlnum("XXL") == "XXL"
  {
  }

  // ---------------------------------------------------------------------------
  // Sessions and the order log

  datatype HistoryEntry = HistoryEntry(role: string, text: string, ts: string)

  datatype CartItem = CartItem(pid: string, size: string, qty: int, addedAt: string)

  datatype Session = Session(
    sessionId: string, history: seq<HistoryEntry>, cart: seq<CartItem>,
    lastRecs: seq<string>, lastQuery: Option<string>, lastMentioned: Option<string>,
    createdAt: string)

  datatype OrderItem = OrderItem(pid: string, size: string, qty: int, price: int)

  datatype OrderRecord = OrderRecord(orderId: string, userId: string, items: seq<OrderItem>, total: int, createdAt: string)

  /** The session `start_session` creates: no history, no cart, no recommendations. */
  function NewSession(sessionId: string, now: string): (s: Session)
    ensures s.sessionId == sessionId && s.history == [] && s.cart == [] && s.lastRecs == []
    ensures s.lastQuery.None? && s.lastMentioned.None?
  {
    Session(sessionId, [], [], [], None, None, now)
  }

  /** The session `get_session` hands out: the stored one, or a new one. */
  function SessionOr(sessions: map<string, Session>, sessionId: string, now: string): Session {
    if sessionId in sessions then sessions[sessionId] else NewSession(sessionId, now)
  }

  /** The id of the n-th order of the log: "ORD" and n zero-padded to five digits. */
  function OrderId(n: nat): string {
    "ORD" + ZeroPad(n, 5)
  }

  /** Distinct positions in the log get distinct order ids. */
  lemma OrderIdInjective(n: nat, m: nat)
    requires OrderId(n) == OrderId(m)
    ensures n == m
  {
    assert ZeroPad(n, 5) == OrderId(n)[3..];
    assert ZeroPad(m, 5) == OrderId(m)[3..];
    ZeroPadRoundTrip(n, 5);
    ZeroPadRoundTrip(m, 5);
  }

  /** In a log numbered from 1, no two orders share an id. */
  lemma NumberedIdsDistinct(orders: seq<OrderRecord>, i: nat, j: nat)
    requires forall k :: 0 <= k < |orders| ==> orders[k].orderId == OrderId(k + 1)
    requires i < j < |orders|
    ensures orders[i].orderId != orders[j].orderId
  {
    if OrderId(i + 1) == OrderId(j + 1) {
      OrderIdInjective(i + 1, j + 1);
    }
  }

  // ---------------------------------------------------------------------------
  // Reference resolution

  /** The first catalogue pid written literally in the lower-cased text (the pids are
      lower case already, so `pid.lower()` is the pid). */
  function LiteralPid(textLower: string): (r: Option<string>)
    ensures r.Some? ==> r.value in ProductIds && Contains(textLower, r.value)
    ensures r.None? ==> forall pid :: pid in ProductIds ==> !Contains(textLower, pid)
  {
    if Contains(textLower, "p01") then Some("p01")
    else if Contains(textLower, "p02") then Some("p02")
    else if Contains(textLower, "p03") then Some("p03")
    else None
  }

  /** The ordinal word stands alone in the text, or ends it after a blank. */
  predicate OrdinalMentioned(textLower: string, word: string) {
    Contains(" " + textLower + " ", " " + word + " ") || EndsWith(Strip(textLower), " " + word)
  }

  const Ordinals: seq<(string, nat)> := [("first", 1), ("second", 2), ("third", 3)]

  /** An ordinal counts when it is mentioned and points inside the recommendations. */
  predicate OrdinalInRange(textLower: string, lastRecs: seq<string>, k: nat)
    requires k < |Ordinals|
  {
    OrdinalMentioned(textLower, Ordinals[k].0) && 1 <= Ordinals[k].1 <= |lastRecs|
  }

  /** The first ordinal mentioned that points inside the last recommendations, taken
      in the order first, second, third; an out-of-range ordinal is passed over. */
  function OrdinalPick(textLower: string, lastRecs: seq<string>, from: nat): (r: Option<string>)
    requires from <= |Ordinals|
    ensures r.Some? ==> r.value in lastRecs
    ensures r.Some? ==> exists k :: from <= k < |Ordinals| && OrdinalMentioned(textLower, Ordinals[k].0)
    decreases |Ordinals| - from
  {
    if from == |Ordinals| then None
    else if OrdinalInRange(textLower, lastRecs, from) then Some(lastRecs[Ordinals[from].1 - 1])
    else OrdinalPick(textLower, lastRecs, from + 1)
  }

  /** The pid found is the first of the catalogue, in catalogue order, that the text
      contains. */
  lemma LiteralPidFirstInCatalog(textLower: string)
    ensures var r := LiteralPid(textLower);
      r.Some? ==> exists j :: 0 <= j < |ProductIds| && ProductIds[j] == r.value
                     && forall m :: 0 <= m < j ==> !Contains(textLower, ProductIds[m])
  {
    var r := LiteralPid(textLower);
    if r.Some? {
      if r.value == "p01" {
        assert ProductIds[0] == r.value;
      } else if r.value == "p02" {
        assert ProductIds[1] == r.value;
      } else {
        assert ProductIds[2] == r.value;
      }
    }
  }

  /** There is an ordinal pick exactly when some ordinal counts. */
  lemma {:induction false} OrdinalPickFound(textLower: string, lastRecs: seq<string>, from: nat)
    requires from <= |Ordinals|
    ensures OrdinalPick(textLower, lastRecs, from).None? <==>
      forall k :: from <= k < |Ordinals| ==> !OrdinalInRange(textLower, lastRecs, k)
    decreases |Ordinals| - from
  {
    if from < |Ordinals| {
      if OrdinalInRange(textLower, lastRecs, from) {
        assert OrdinalPick(textLower, lastRecs, from).Some?;
      } else {
        assert OrdinalPick(textLower, lastRecs, from) == OrdinalPick(textLower, lastRecs, from + 1);
        OrdinalPickFound(textLower, lastRecs, from + 1);
        assert (forall k :: from <= k < |Ordinals| ==> !OrdinalInRange(textLower, lastRecs, k))
           <==> (forall k :: from + 1 <= k < |Ordinals| ==> !OrdinalInRange(textLower, lastRecs, k));
      }
    }
  }

  /** The ordinal pick is the recommendation that the first counting ordinal, in the
      order first, second, third, points to. */
  lemma {:induction false} OrdinalPickFirstInRange(textLower: string, lastRecs: seq<string>, from: nat)
    requires from <= |Ordinals|
    ensures var r := OrdinalPick(textLower, lastRecs, from);
      r.Some? ==> exists k :: from <= k < |Ordinals| && OrdinalInRange(textLower, lastRecs, k)
                     && r.value == lastRecs[Ordinals[k].1 - 1]
                     && forall m :: from <= m < k ==> !OrdinalInRange(textLower, lastRecs, m)
    decreases |Ordinals| - from
  {
    if from < |Ordinals| {
      if OrdinalInRange(textLower, lastRecs, from) {
        assert OrdinalPick(textLower, lastRecs, from) == Some(lastRecs[Ordinals[from].1 - 1]);
      } else {
        var r := OrdinalPick(textLower, lastRecs, from + 1);
        assert OrdinalPick(textLower, lastRecs, from) == r;
        OrdinalPickFirstInRange(textLower, lastRecs, from + 1);
        if r.Some? {
          var k :| from + 1 <= k < |Ordinals| && OrdinalInRange(textLower, lastRecs, k)
                   && r.value == lastRecs[Ordinals[k].1 - 1]
                   && forall m :: from + 1 <= m < k ==> !OrdinalInRange(textLower, lastRecs, m);
          assert forall m :: from <= m < k ==> !OrdinalInRange(textLower, lastRecs, m);
        }
      }
    }
  }

  const Pronouns: set<string> := {"it", "that", "this", "those", "these", "them", "itself"}

  predicate MentionsPronoun(textLower: string) {
    exists w :: w in Words(textLower) && w in Pronouns
  }

  /** Python truthiness of an optional string. */
  predicate Truthy(s: Option<string>) {
    s.Some? && s.value != ""
  }

  /** What a resolution returns, and what the session's `last_mentioned` becomes. */
  datatype Resolution = Resolution(pid: Option<string>, lastMentioned: Option<string>)

  /** `resolve_reference_to_pid` on a session's memory: a literal pid wins, then an
      in-range ordinal into the last recommendations, then a pronoun (the product last
      mentioned, else the first recommendation); otherwise nothing. A resolved product
      becomes the last mentioned one. */
  function Resolve(text: string, lastRecs: seq<string>, lastMentioned: Option<string>): Resolution {
    var t := Lower(text);
    match LiteralPid(t)
    case Some(pid) => Resolution(Some(pid), Some(pid))
    case None =>
      match OrdinalPick(t, lastRecs, 0)
      case Some(pid) => Resolution(Some(pid), Some(pid))
      case None =>
        if MentionsPronoun(t) && Truthy(lastMentioned) then Resolution(lastMentioned, lastMentioned)
        else if MentionsPronoun(t) && lastRecs != [] then Resolution(Some(lastRecs[0]), Some(lastRecs[0]))
        else Resolution(None, lastMentioned)
  }

  /** A literal pid wins, then an ordinal, then a pronoun with something remembered;
      the memory is updated exactly when something is found. */
  lemma ResolvePrecedence(text: string, lastRecs: seq<string>, lastMentioned: Option<string>)
    ensures var t, r := Lower(text), Resolve(text, lastRecs, lastMentioned);
      && (LiteralPid(t).Some? ==> r.pid == LiteralPid(t))
      && (LiteralPid(t).None? && OrdinalPick(t, lastRecs, 0).Some? ==> r.pid == OrdinalPick(t, lastRecs, 0))
      && (r.pid.None? <==> LiteralPid(t).None? && OrdinalPick(t, lastRecs, 0).None?
                           && !(MentionsPronoun(t) && (Truthy(lastMentioned) || lastRecs != [])))
      && (r.pid.Some? ==> r.pid.value in ProductIds || r.pid.value in lastRecs || r.pid == lastMentioned)
      && r.lastMentioned == (if r.pid.Some? then r.pid else lastMentioned)
    ensures var t, r := Lower(text), Resolve(text, lastRecs, lastMentioned);
      LiteralPid(t).None? && OrdinalPick(t, lastRecs, 0).None? && MentionsPronoun(t) ==>
        && (Truthy(lastMentioned) ==> r.pid == lastMentioned)
        && (!Truthy(lastMentioned) && lastRecs != [] ==> r.pid == Some(lastRecs[0]))
  {
  }

  /** When the session only remembers catalogue products, every resolved reference is
      a catalogue product, and the memory stays that way. */
  lemma ResolveStaysInCatalog(text: string, lastRecs: seq<string>, lastMentioned: Option<string>)
    requires forall pid :: pid in lastRecs ==> pid in ProductIds
    requires lastMentioned.Some? ==> lastMentioned.value in ProductIds
    ensures var r := Resolve(text, lastRecs, lastMentioned);
      (r.pid.Some? ==> r.pid.value in ProductIds) && (r.lastMentioned.Some? ==> r.lastMentioned.value in ProductIds)
  {
    ResolvePrecedence(text, lastRecs, lastMentioned);
  }

  // ---------------------------------------------------------------------------
  // Inventory

  type Inventory = map<string, map<string, int>>

  const InitialInventory: Inventory := map[
    "p01" := map["M" := 5, "L" := 3],
    "p02" := map["M" := 2, "L" := 2],
    "p03" := map["M" := 4, "L" := 0]
  ]

  /** `inventory_store.get(pid, {}).get(size, 0)`. */
  function Available(inv: Inventory, pid: string, size: string): int {
    if pid in inv && size in inv[pid] then inv[pid][size] else 0
  }

  /** The store after a successful reservation: only (pid, size) drops by qty. */
  function Reserved(inv: Inventory, pid: string, size: string, qty: int): (r: Inventory)
    requires pid in inv
    ensures forall p, s :: Available(r, p, s) == Available(inv, p, s) - (if p == pid && s == size then qty else 0)
  {
    inv[pid := inv[pid][size := Available(inv, pid, size) - qty]]
  }

  /** The store after a release: (pid, size) grows by qty, missing entries counting 0. */
  function Released(inv: Inventory, pid: string, size: string, qty: int): (r: Inventory)
    ensures forall p, s :: Available(r, p, s) == Available(inv, p, s) + (if p == pid && s == size then qty else 0)
  {
    var sizes := if pid in inv then inv[pid] else map[];
    inv[pid := sizes[size := Available(inv, pid, size) + qty]]
  }

  /** A successful reservation followed by the release of the same quantity puts the
      store back exactly as it was. */
  lemma ReserveThenReleaseRestores(inv: Inventory, pid: string, size: string, qty: int)
    requires qty >= 1 && Available(inv, pid, size) >= qty
    ensures Released(Reserved(inv, pid, size, qty), pid, size, qty) == inv
  {
    var back := Released(Reserved(inv, pid, size, qty), pid, size, qty);
    assert back[pid] == inv[pid];
  }

  predicate StockNonNegative(inv: Inventory) {
    forall p, s :: p in inv && s in inv[p] ==> inv[p][s] >= 0
  }

  /** A reservation that the store can cover never drives a stock level negative. */
  lemma ReservedKeepsStockNonNegative(inv: Inventory, pid: string, size: string, qty: int)
    requires StockNonNegative(inv) && qty >= 1 && Available(inv, pid, size) >= qty
    ensures StockNonNegative(Reserved(inv, pid, size, qty))
  {
  }

  /** `check_inventory`: "yes" with the quantity when some is left, else "no" and 0. */
  function CheckInventory(inv: Inventory, pid: string, size: string): (r: (string, int))
    ensures r.0 == "yes" <==> Available(inv, pid, size) > 0
    ensures r.0 == "yes" || r.0 == "no"
    ensures r.1 == if r.0 == "yes" then Available(inv, pid, size) else 0
  {
    var qty := Available(inv, pid, size);
    if qty > 0 then ("yes", qty) else ("no", 0)
  }

  /** Reserving all that is left of a size makes it read as out of stock. */
  lemma ReservingAllEmptiesSize(inv: Inventory, pid: string, size: string)
    requires Available(inv, pid, size) >= 1
    ensures CheckInventory(Reserved(inv, pid, size, Available(inv, pid, size)), pid, size) == ("no", 0)
  {
  }

  // ---------------------------------------------------------------------------
  // Adding to the cart: size fallback

  /** `resolved.get("size") or "M"`. */
  function RequestedSize(size: Option<string>): string {
    if Truthy(size) then size.value else "M"
  }

  /** The sizes tried, in order: the requested one, then M, L, S, XL without it. */
  function SizesToTry(size: string): (r: seq<string>)
    ensures |r| >= 1 && r[0] == size
    ensures forall s :: s in r[1..] <==> s in FallbackSizes && s != size
  {
    [size] + Skip(FallbackSizes, size)
  }

  const FallbackSizes: seq<string> := ["M", "L", "S", "XL"]

  /** The size the flow reserves: the first one tried that the store can cover. */
  function ChooseSize(inv: Inventory, pid: string, size: string, qty: int): (r: Option<string>)
    ensures r.Some? ==> r.value in SizesToTry(size) && Available(inv, pid, r.value) >= qty
    ensures r.None? ==> forall s :: s in SizesToTry(size) ==> Available(inv, pid, s) < qty
  {
    var order := SizesToTry(size);
    match FirstWhere(order, (s: string) => Available(inv, pid, s) >= qty)
    case None => None
    case Some(k) => Some(order[k])
  }

  /** The requested size wins whenever the store can cover it. */
  lemma ChooseSizePrefersRequested(inv: Inventory, pid: string, size: string, qty: int)
    requires Available(inv, pid, size) >= qty
    ensures ChooseSize(inv, pid, size, qty) == Some(size)
  {
  }

  datatype AddReply =
    | NeedsClarification
    | CouldNotReserve(pid: string, qty: int)
    | AddedToCart(pid: string, size: string, qty: int)

  /** The reply of `add_to_cart_flow` with the sessions and the store it leaves. */
  datatype AddOutcome = AddOutcome(reply: AddReply, sessions: map<string, Session>, inventory: Inventory)

  /** `add_to_cart_flow` with the size and quantity already read from the text: the
      reference is resolved on the session's memory, which remembers the result; an
      unresolved reference stops there. */
  function AddToCartOutcome(sessions: map<string, Session>, inv: Inventory, sessionId: string, userText: string,
                            size: Option<string>, qty: int, now: string): AddOutcome
    requires qty >= 1
  {
    var s := SessionOr(sessions, sessionId, now);
    var r := Resolve(userText, s.lastRecs, s.lastMentioned);
    var remembered := sessions[sessionId := s.(lastMentioned := r.lastMentioned)];
    if r.pid.None? then AddOutcome(NeedsClarification, remembered, inv)
    else AddResolvedOutcome(remembered, inv, sessionId, r.pid.value, RequestedSize(size), qty, now)
  }

  /** Once the product is known: the first size the store covers is reserved and
      recorded as a cart line with the assistant's note; when none is covered,
      nothing changes. */
  function AddResolvedOutcome(sessions: map<string, Session>, inv: Inventory, sessionId: string, pid: string,
                              wanted: string, qty: int, now: string): AddOutcome
    requires sessionId in sessions && qty >= 1
  {
    match ChooseSize(inv, pid, wanted, qty)
    case None => AddOutcome(CouldNotReserve(pid, qty), sessions, inv)
    case Some(chosen) =>
      AddOutcome(AddedToCart(pid, chosen, qty),
                 sessions[sessionId := WithAddedLine(sessions[sessionId], pid, chosen, qty, now)],
                 Reserved(inv, pid, chosen, qty))
  }

  /** An unresolved reference leaves the store and every cart as they were; only a
      missing session is created. */
  lemma AddToCartUnresolved(sessions: map<string, Session>, inv: Inventory, sessionId: string, userText: string,
                            size: Option<string>, qty: int, now: string)
    requires qty >= 1
    ensures var s := SessionOr(sessions, sessionId, now);
      var o := AddToCartOutcome(sessions, inv, sessionId, userText, size, qty, now);
      Resolve(userText, s.lastRecs, s.lastMentioned).pid.None? ==>
        o.reply == NeedsClarification && o.inventory == inv && o.sessions == sessions[sessionId := s]
  {
    var s := SessionOr(sessions, sessionId, now);
    ResolvePrecedence(userText, s.lastRecs, s.lastMentioned);
  }

  /** A resolved reference becomes the session's last mentioned product, and the flow
      goes on with that product (see `AddResolvedEffects`). */
  lemma AddToCartResolved(sessions: map<string, Session>, inv: Inventory, sessionId: string, userText: string,
                          size: Option<string>, qty: int, now: string)
    requires qty >= 1
    ensures var s := SessionOr(sessions, sessionId, now);
      var r := Resolve(userText, s.lastRecs, s.lastMentioned);
      r.pid.Some? ==>
        AddToCartOutcome(sessions, inv, sessionId, userText, size, qty, now)
        == AddResolvedOutcome(sessions[sessionId := s.(lastMentioned := r.pid)], inv, sessionId, r.pid.value,
                              RequestedSize(size), qty, now)
  {
    var s := SessionOr(sessions, sessionId, now);
    ResolvePrecedence(userText, s.lastRecs, s.lastMentioned);
  }

  /** Once the product is known, an item is added exactly when some size is covered;
      only that size is reserved and only this session's cart grows, by that line. */
  lemma AddResolvedEffects(sessions: map<string, Session>, inv: Inventory, sessionId: string, pid: string,
                           wanted: string, qty: int, now: string)
    requires sessionId in sessions && qty >= 1
    ensures var o := AddResolvedOutcome(sessions, inv, sessionId, pid, wanted, qty, now);
      && o.sessions.Keys == sessions.Keys
      && (forall other :: other in sessions && other != sessionId ==> o.sessions[other] == sessions[other])
      && (o.reply.AddedToCart? <==> ChooseSize(inv, pid, wanted, qty).Some?)
      && (o.reply.AddedToCart? ==>
            && o.reply.pid == pid && o.reply.qty == qty
            && o.reply.size in SizesToTry(wanted)
            && Available(inv, pid, o.reply.size) >= qty && pid in inv
            && o.inventory == Reserved(inv, pid, o.reply.size, qty)
            && o.sessions[sessionId].cart == sessions[sessionId].cart + [CartItem(pid, o.reply.size, qty, now)])
      && (!o.reply.AddedToCart? ==> o.reply == CouldNotReserve(pid, qty) && o.inventory == inv && o.sessions == sessions)
  {
  }

  datatype CheckoutReply =
    | CartIsEmpty
    | OrderPlaced(orderId: string, total: int, items: seq<OrderItem>)

  /** The order line for a cart item, priced from the catalogue (0 when unknown). */
  function PricedItem(it: CartItem): OrderItem {
    OrderItem(it.pid, it.size, it.qty, match PidToProd(it.pid) case None => 0 case Some(p) => p.price)
  }

  function PricedItems(cart: seq<CartItem>): (r: seq<OrderItem>)
    ensures |r| == |cart|
    ensures forall k :: 0 <= k < |cart| ==> r[k] == PricedItem(cart[k])
  {
    if cart == [] then [] else PricedItems(cart[..|cart| - 1]) + [PricedItem(cart[|cart| - 1])]
  }

  /** Σ price × qty over the order lines. */
  function Total(items: seq<OrderItem>): int {
    if items == [] then 0 else Total(items[..|items| - 1]) + items[|items| - 1].price * items[|items| - 1].qty
  }

  /** A cart of positive quantities totals at least the price of any one known item. */
  lemma {:induction false} TotalCoversEachItem(items: seq<OrderItem>, k: nat)
    requires forall i :: 0 <= i < |items| ==> items[i].qty >= 1 && items[i].price >= 0
    requires k < |items|
    ensures Total(items) >= items[k].price
  {
    var last := |items| - 1;
    TotalNonNegative(items[..last]);
    if k < last {
      TotalCoversEachItem(items[..last], k);
    }
  }

  lemma {:induction false} TotalNonNegative(items: seq<OrderItem>)
    requires forall i :: 0 <= i < |items| ==> items[i].qty >= 1 && items[i].price >= 0
    ensures Total(items) >= 0
  {
    if items != [] {
      TotalNonNegative(items[..|items| - 1]);
    }
  }

  // ---------------------------------------------------------------------------
  // Intent classification and product cards

  datatype Intent = Browse | AddToCart | InventoryQuery | Checkout | ProductDetails | Other

  predicate AnyIn(msg: string, words: seq<string>) {
    exists w :: w in words && Contains(msg, w)
  }

  const BrowseWords: seq<string> := ["show", "find", "suggest", "recommend"]
  const AddWords: seq<string> := ["add", "cart", "buy"]
  const InventoryWords: seq<string> := ["size", "available", "inventory"]
  const CheckoutWords: seq<string> := ["checkout", "pay", "purchase"]
  const DetailWords: seq<string> := ["detail", "does it", "is it"]

  /** `classify_intent`: the first keyword group (browse, add to cart, inventory,
      checkout, product details) with a keyword inside the lower-cased message. */
  function ClassifyIntent(msg: string): (r: Intent)
    ensures var m := Lower(msg);
      && (r == Browse <==> AnyIn(m, BrowseWords))
      && (r == AddToCart <==> !AnyIn(m, BrowseWords) && AnyIn(m, AddWords))
      && (r == InventoryQuery <==> !AnyIn(m, BrowseWords) && !AnyIn(m, AddWords) && AnyIn(m, InventoryWords))
      && (r == Checkout <==> !AnyIn(m, BrowseWords) && !AnyIn(m, AddWords) && !AnyIn(m, InventoryWords)
                             && AnyIn(m, CheckoutWords))
      && (r == ProductDetails <==> !AnyIn(m, BrowseWords) && !AnyIn(m, AddWords) && !AnyIn(m, InventoryWords)
                                   && !AnyIn(m, CheckoutWords) && AnyIn(m, DetailWords))
      && (r == Other <==> !AnyIn(m, BrowseWords) && !AnyIn(m, AddWords) && !AnyIn(m, InventoryWords)
                          && !AnyIn(m, CheckoutWords) && !AnyIn(m, DetailWords))
  {
    var m := Lower(msg);
    if AnyIn(m, BrowseWords) then Browse
    else if AnyIn(m, AddWords) then AddToCart
    else if AnyIn(m, InventoryWords) then InventoryQuery
    else if AnyIn(m, CheckoutWords) then Checkout
    else if AnyIn(m, DetailWords) then ProductDetails
    else Other
  }

  /** The label `classify_intent` returns. */
  function IntentLabel(i: Intent): string {
    match i
    case Browse => "browse"
    case AddToCart => "add_to_cart"
    case InventoryQuery => "inventory"
    case Checkout => "checkout"
    case ProductDetails => "product_details"
    case Other => "other"
  }

  /** Classification ignores letter case: shouting a message does not change it. */
  lemma ClassifyIgnoresCase(msg: string)
    ensures ClassifyIntent(Upper(msg)) == ClassifyIntent(msg)
  {
    assert Lower(Upper(msg)) == Lower(msg);
  }

  datatype Card = Card(pid: string, title: string, subtitle: string, price: int)

  /** `format_product_cards`: a card per catalogue pid, in the given order. */
  function FormatProductCards(pids: seq<string>): (cards: seq<Card>)
    ensures |cards| <= |pids|
    ensures forall c :: c in cards ==> c.pid in ProductIds && PidToProd(c.pid) == Some(CatalogItem(c.pid, c.title, c.subtitle, c.price))
  {
    if pids == [] then []
    else
      var rest := FormatProductCards(pids[1..]);
      match PidToProd(pids[0])
      case None => rest
      case Some(p) => [Card(pids[0], p.title, p.desc, p.price)] + rest
  }

  lemma {:induction false} FormatProductCardsConcat(a: seq<string>, b: seq<string>)
    ensures FormatProductCards(a + b) == FormatProductCards(a) + FormatProductCards(b)
  {
    if a == [] {
      assert a + b == b;
    } else {
      assert (a + b)[0] == a[0];
      assert (a + b)[1..] == a[1..] + b;
      FormatProductCardsConcat(a[1..], b);
    }
  }

  /** An unknown pid anywhere in the list is dropped without disturbing the others. */
  lemma FormatProductCardsDropsUnknown(a: seq<string>, pid: string, b: seq<string>)
    requires pid !in ProductIds
    ensures FormatProductCards(a + [pid] + b) == FormatProductCards(a + b)
  {
    FormatProductCardsConcat(a + [pid], b);
    FormatProductCardsConcat(a, [pid]);
    FormatProductCardsConcat(a, b);
    assert FormatProductCards([pid]) == [];
  }

  /** A list of catalogue pids gets one card each, in order. */
  lemma {:induction false} FormatProductCardsKeepsOrder(pids: seq<string>)
    requires forall pid :: pid in pids ==> pid in ProductIds
    ensures |FormatProductCards(pids)| == |pids|
    ensures forall k :: 0 <= k < |pids| ==> FormatProductCards(pids)[k].pid == pids[k]
  {
    if pids != [] {
      FormatProductCardsKeepsOrder(pids[1..]);
    }
  }

  // ---------------------------------------------------------------------------
  // The adapter's global state

  class Adapter {
    var sessions: map<string, Session>
    var inventory: Inventory
    var orders: seq<OrderRecord>

    /** Sessions are stored under their own id, and the k-th order of the log carries
        the id of position k + 1. */
    ghost predicate Valid()
      reads this
    {
      && (forall sid :: sid in sessions ==> sessions[sid].sessionId == sid)
      && (forall k :: 0 <= k < |orders| ==> orders[k].orderId == OrderId(k + 1))
    }

    constructor ()
      ensures Valid()
      ensures sessions == map[] && inventory == InitialInventory && orders == []
    {
      sessions := map[];
      inventory := InitialInventory;
      orders := [];
    }

    /** No two orders of the log share an id. */
    lemma OrderIdsDistinct(i: nat, j: nat)
      requires Valid() && i < j < |orders|
      ensures orders[i].orderId != orders[j].orderId
    {
      NumberedIdsDistinct(orders, i, j);
    }

    /** `start_session`: a fresh session replaces whatever was stored under the id. */
    method StartSession(sessionId: string, now: string) returns (s: Session)
      requires Valid()
      modifies this`sessions
      ensures Valid()
      ensures s == NewSession(sessionId, now) && sessions == old(sessions)[sessionId := s]
    {
      s := NewSession(sessionId, now);
      sessions := sessions[sessionId := s];
    }

    /** `get_session`: the stored session, untouched, or a freshly started one. */
    method GetSession(sessionId: string, now: string) returns (s: Session)
      requires Valid()
      modifies this`sessions
      ensures Valid()
      ensures s == SessionOr(old(sessions), sessionId, now) && s.sessionId == sessionId
      ensures sessionId in old(sessions) ==> sessions == old(sessions)
      ensures sessionId !in old(sessions) ==> sessions == old(sessions)[sessionId := s]
    {
      if sessionId !in sessions {
        s := StartSession(sessionId, now);
      } else {
        s := sessions[sessionId];
      }
    }

    /** `resolve_reference_to_pid` on the session's memory; the session is created if
        missing and remembers a resolved product as the last one mentioned. */
    method ResolveReferenceToPid(userText: string, sessionId: string, now: string) returns (pid: Option<string>)
      requires Valid()
      modifies this`sessions
      ensures Valid()
      ensures var s := SessionOr(old(sessions), sessionId, now);
        var r := Resolve(userText, s.lastRecs, s.lastMentioned);
        pid == r.pid && sessions == old(sessions)[sessionId := s.(lastMentioned := r.lastMentioned)]
    {
      var s := GetSession(sessionId, now);
      var r := Resolve(userText, s.lastRecs, s.lastMentioned);
      sessions := sessions[sessionId := s.(lastMentioned := r.lastMentioned)];
      pid := r.pid;
    }

    /** `reserve_inventory`: succeeds exactly when the store holds at least qty of
        (pid, size), and then takes qty from that entry alone. */
    method ReserveInventory(pid: string, size: string, qty: int) returns (ok: bool)
      requires qty >= 1
      modifies this`inventory
      ensures ok <==> Available(old(inventory), pid, size) >= qty
      ensures ok ==> pid in old(inventory) && inventory == Reserved(old(inventory), pid, size, qty)
      ensures !ok ==> inventory == old(inventory)
    {
      var avail := Available(inventory, pid, size);
      if avail >= qty {
        inventory := inventory[pid := inventory[pid][size := avail - qty]];
        return true;
      }
      return false;
    }

    /** `release_inventory`: always succeeds and gives qty back to (pid, size). */
    method ReleaseInventory(pid: string, size: string, qty: int) returns (ok: bool)
      modifies this`inventory
      ensures ok && inventory == Released(old(inventory), pid, size, qty)
    {
      if pid !in inventory {
        inventory := inventory[pid := map[]];
      }
      inventory := inventory[pid := inventory[pid][size := Available(inventory, pid, size) + qty]];
      ok := true;
    }

    /** `add_to_cart_flow` with the size and quantity already read from the text: an
        unresolved reference changes neither cart nor inventory. Otherwise the sizes
        are tried in `SizesToTry` order and the first the store covers is reserved, so at
        most one size is reserved; the cart grows by exactly one item when a
        reservation succeeded and stays as it was otherwise. */
    method AddToCartFlow(sessionId: string, userText: string, size: Option<string>, qty: int, now: string)
      returns (reply: AddReply)
      requires Valid() && qty >= 1
      modifies this`sessions, this`inventory
      ensures Valid()
      ensures AddOutcome(reply, sessions, inventory) == AddToCartOutcome(old(sessions), old(inventory), sessionId, userText, size, qty, now)
    {
      var pid := ResolveReferenceToPid(userText, sessionId, now);
      if pid.None? {
        return NeedsClarification;
      }
      reply := AddResolved(sessionId, pid.value, RequestedSize(size), qty, now);
    }

    /** `add_to_cart_flow` once the product is known: reserve a size, then record the
        line and the assistant's note in the session. */
    method AddResolved(sessionId: string, pid: string, wanted: string, qty: int, now: string)
      returns (reply: AddReply)
      requires Valid() && qty >= 1 && sessionId in sessions
      modifies this`sessions, this`inventory
      ensures Valid()
      ensures AddOutcome(reply, sessions, inventory) == AddResolvedOutcome(old(sessions), old(inventory), sessionId, pid, wanted, qty, now)
    {
      var chosen := ReserveWithFallback(pid, wanted, qty);
      if chosen.None? {
        return CouldNotReserve(pid, qty);
      }
      sessions := sessions[sessionId := WithAddedLine(sessions[sessionId], pid, chosen.value, qty, now)];
      reply := AddedToCart(pid, chosen.value, qty);
    }

    /** The reservation loop of `add_to_cart_flow`: reserve the requested size, or else
        the first of M, L, S, XL (other than the requested one) that the store covers.
        Failed attempts leave the store alone, so at most one size is reserved. */
    method ReserveWithFallback(pid: string, wanted: string, qty: int) returns (chosen: Option<string>)
      requires qty >= 1
      modifies this`inventory
      ensures chosen == ChooseSize(old(inventory), pid, wanted, qty)
      ensures chosen.Some? ==> pid in old(inventory) && inventory == Reserved(old(inventory), pid, chosen.value, qty)
      ensures chosen.None? ==> inventory == old(inventory)
    {
      var reserved := ReserveInventory(pid, wanted, qty);
      if reserved {
        ChooseSizePrefersRequested(old(inventory), pid, wanted, qty);
        return Some(wanted);
      }
      var k := 0;
      chosen := None;
      while k < |FallbackSizes| && chosen.None?
        invariant 0 <= k <= |FallbackSizes|
        invariant chosen.None? ==> inventory == old(inventory)
        invariant chosen.None? ==> forall s :: s in TriedSoFar(wanted, k) ==> Available(old(inventory), pid, s) < qty
        invariant chosen.Some? ==> ChooseSize(old(inventory), pid, wanted, qty) == chosen
        invariant chosen.Some? ==> pid in old(inventory) && inventory == Reserved(old(inventory), pid, chosen.value, qty)
      {
        var alt := FallbackSizes[k];
        if alt != wanted {
          var ok := ReserveInventory(pid, alt, qty);
          if ok {
            ChooseSizeAfterFailures(old(inventory), pid, wanted, qty, k);
            chosen := Some(alt);
          }
        }
        assert FallbackSizes[..k + 1] == FallbackSizes[..k] + [alt];
        SkipConcat(FallbackSizes[..k], [alt], wanted);
        k := k + 1;
      }
      if chosen.None? {
        assert FallbackSizes[..4] == FallbackSizes;
        assert TriedSoFar(wanted, 4) == SizesToTry(wanted);
      }
    }

    /** `checkout_flow`: an empty cart places nothing. Otherwise every item is priced
        from the catalogue (unknown pids at 0), the order with the next log id and
        total Σ price × qty is appended to the log, the cart is emptied and the
        history notes the order. Payment always succeeds here. */
    method CheckoutFlow(sessionId: string, userId: string, now: string) returns (reply: CheckoutReply)
      requires Valid()
      modifies this`sessions, this`orders
      ensures Valid()
      ensures var s := SessionOr(old(sessions), sessionId, now);
        s.cart == [] ==> reply == CartIsEmpty && orders == old(orders) && sessions == old(sessions)[sessionId := s]
      ensures var s := SessionOr(old(sessions), sessionId, now);
        var items := PricedItems(s.cart);
        var id := OrderId(|old(orders)| + 1);
        s.cart != [] ==>
          && reply == OrderPlaced(id, Total(items), items)
          && orders == old(orders) + [OrderRecord(id, userId, items, Total(items), now)]
          && sessions == old(sessions)[sessionId := s.(
               cart := [],
               history := s.history + [HistoryEntry("assistant", PlacedNote(id, Total(items)), now)])]
    {
      var s := GetSession(sessionId, now);
      var cart := s.cart;
      if cart == [] {
        return CartIsEmpty;
      }
      var items, total := PriceCart(cart);
      var orderId := OrderId(|orders| + 1);
      orders := orders + [OrderRecord(orderId, userId, items, total, now)];
      sessions := sessions[sessionId := s.(
        cart := [],
        history := s.history + [HistoryEntry("assistant", PlacedNote(orderId, total), now)])];
      reply := OrderPlaced(orderId, total, items);
    }
  }

  /** The pricing loop of `checkout_flow`: each item priced from the catalogue and the
      running total of price × qty. */
  method PriceCart(cart: seq<CartItem>) returns (items: seq<OrderItem>, total: int)
    ensures items == PricedItems(cart) && total == Total(items)
  {
    total := 0;
    items := [];
    var i := 0;
    while i < |cart|
      invariant 0 <= i <= |cart|
      invariant items == PricedItems(cart[..i])
      invariant total == Total(items)
    {
      var line := PricedItem(cart[i]);
      assert cart[..i + 1][..i] == cart[..i];
      assert (items + [line])[..|items|] == items;
      items := items + [line];
      total := total + line.price * line.qty;
      i := i + 1;
    }
    assert cart[..i] == cart;
  }

  /** The sizes tried once the requested one and the first k alternatives failed. */
  function TriedSoFar(wanted: string, k: nat): seq<string>
    requires k <= 4
  {
    [wanted] + Skip(FallbackSizes[..k], wanted)
  }

  function Skip(alts: seq<string>, wanted: string): (r: seq<string>)
    ensures forall s :: s in r <==> s in alts && s != wanted
  {
    if alts == [] then [] else Skip(alts[..|alts| - 1], wanted) + (if alts[|alts| - 1] == wanted then [] else [alts[|alts| - 1]])
  }

  /** When every size tried before the k-th alternative failed and that alternative is
      covered, it is the size `ChooseSize` picks. */
  lemma ChooseSizeAfterFailures(inv: Inventory, pid: string, wanted: string, qty: int, k: nat)
    requires k < 4 && FallbackSizes[k] != wanted
    requires forall s :: s in TriedSoFar(wanted, k) ==> Available(inv, pid, s) < qty
    requires Available(inv, pid, FallbackSizes[k]) >= qty
    ensures ChooseSize(inv, pid, wanted, qty) == Some(FallbackSizes[k])
  {
    var order := SizesToTry(wanted);
    var j := |TriedSoFar(wanted, k)|;
    TriedSoFarIsPrefix(wanted, k);
    forall m | 0 <= m < j ensures Available(inv, pid, order[m]) < qty {
      assert order[m] == order[..j][m];
    }
    FirstWhereAt(order, (s: string) => Available(inv, pid, s) >= qty, j);
  }

  /** The sizes tried before the k-th alternative open the full order, and that
      alternative comes right after them. */
  lemma TriedSoFarIsPrefix(wanted: string, k: nat)
    requires k < 4 && FallbackSizes[k] != wanted
    ensures var j := |TriedSoFar(wanted, k)|;
      j < |SizesToTry(wanted)| && SizesToTry(wanted)[..j] == TriedSoFar(wanted, k)
      && SizesToTry(wanted)[j] == FallbackSizes[k]
  {
    var order := SizesToTry(wanted);
    var alt := FallbackSizes[k];
    var pre, post := FallbackSizes[..k], FallbackSizes[k + 1..];
    assert FallbackSizes == pre + [alt] + post;
    SkipConcat(pre + [alt], post, wanted);
    SkipConcat(pre, [alt], wanted);
    assert Skip([alt], wanted) == [alt] by {
      assert [alt][..0] == [];
    }
    var tried := TriedSoFar(wanted, k);
    assert order == tried + [alt] + Skip(post, wanted);
    SplitAt(tried, alt, Skip(post, wanted));
  }

  /** The part before a marked element, and the element itself. */
  lemma SplitAt<T>(a: seq<T>, x: T, b: seq<T>)
    ensures |a| < |a + [x] + b| && (a + [x] + b)[..|a|] == a && (a + [x] + b)[|a|] == x
  {
  }

  lemma {:induction false} SkipConcat(a: seq<string>, b: seq<string>, wanted: string)
    ensures Skip(a + b, wanted) == Skip(a, wanted) + Skip(b, wanted)
    decreases |b|
  {
    if b == [] {
      assert a + b == a;
    } else {
      var b0 := b[..|b| - 1];
      assert (a + b)[..|a + b| - 1] == a + b0;
      assert (a + b)[|a + b| - 1] == b[|b| - 1];
      SkipConcat(a, b0, wanted);
    }
  }

  /** The session with one more cart line and the assistant's note about it. */
  function WithAddedLine(s: Session, pid: string, size: string, qty: int, now: string): (r: Session)
    ensures r.sessionId == s.sessionId
  {
    s.(cart := s.cart + [CartItem(pid, size, qty, now)],
       history := s.history + [HistoryEntry("assistant", AddedNote(qty, pid, size), now)])
  }

  /** The history note for an added item. */
  function AddedNote(qty: int, pid: string, size: string): string {
    "Added " + IntToString(qty) + " x " + pid + " size " + size + " to cart"
  }

  /** The history note for a placed order. */
  function PlacedNote(orderId: string, total: int): string {
    "Order " + orderId + " placed. Total Rs" + IntToString(total)
  }
}
