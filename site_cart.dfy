/** The cart and checkout logic of the static storefront script
    (ALTURA_SITE/site/assets/app.js): price lookup, the stored preference and
    its currency toggle, add-to-cart with merge, remove by index, the badge
    and subtotal folds, and the checkout request sent to the server. */
module SiteCart {
  import opened JsBuiltins
  import opened JsonValues
  import opened CartLines
  import Locale

  /** A catalog product as the cart reads it. `price` is the optional
      per-currency table; `priceUsd` and `priceEur` are the flat fields,
      0 when absent (the script reads them with `|| 0`). */
  datatype Product = Product(
    slug: string, code: string, nameEn: string, nameFr: string, category: string,
    price: map<string, int>, priceUsd: int, priceEur: int)

  /** A stored cart line; the key of a line is (slug, size, currency). */
  datatype Line = Line(
    slug: string, code: string, nameEn: string, nameFr: string,
    size: string, qty: int, currency: string, unitAmount: int)

  // ---------------------------------------------------------------------------
  // Prices and preferences
  // ---------------------------------------------------------------------------

  /** `calcItemPrice`: a truthy entry of the price table wins; otherwise the
      flat USD field for "USD" and the flat EUR field for every other currency. */
  function CalcItemPrice(p: Product, currency: string): (cents: int)
    ensures currency in p.price && p.price[currency] != 0 ==> cents == p.price[currency]
    ensures !(currency in p.price && p.price[currency] != 0) ==>
      cents == if currency == "USD" then p.priceUsd else p.priceEur
  {
    if currency in p.price && p.price[currency] != 0 then p.price[currency]
    else if currency == "USD" then p.priceUsd
    else p.priceEur
  }

  /** The price of a currency depends only on that currency's table entry and
      on the one flat field the currency falls back to. */
  lemma CalcItemPriceLocal(p: Product, q: Product, currency: string)
    requires (currency in p.price) == (currency in q.price)
    requires currency in p.price ==> p.price[currency] == q.price[currency]
    requires currency == "USD" ==> p.priceUsd == q.priceUsd
    requires currency != "USD" ==> p.priceEur == q.priceEur
    ensures CalcItemPrice(p, currency) == CalcItemPrice(q, currency)
  {
  }

  /** The stored preference; a stored object may lack `currency` (None). */
  datatype Pref = Pref(currency: Option<string>)

  /** `getPref()`: the stored preference, or {currency: "EUR"} when nothing
      is stored or the stored text is not JSON (both given as None). */
  function GetPref(stored: Option<Pref>): (p: Pref)
    ensures stored.None? ==> p.currency == Some("EUR")
    ensures stored.Some? ==> p == stored.value
  {
    if stored.Some? then stored.value else Pref(Some("EUR"))
  }

  /** `pref.currency || 'EUR'`: the currency prices are shown and charged in. */
  function ActiveCurrency(p: Pref): string {
    if p.currency.Some? && p.currency.value != "" then p.currency.value else "EUR"
  }

  /** The currency toggle's click: `pref.currency === 'EUR' ? 'USD' : 'EUR'`. */
  function ToggledCurrency(p: Pref): string {
    if p.currency == Some("EUR") then "USD" else "EUR"
  }

  /** The toggle switches EUR to USD and any other shown currency to EUR; a
      preference whose currency is missing or empty shows EUR and the toggle
      keeps it at EUR. */
  lemma CurrencyToggleSpec(p: Pref)
    ensures p.currency == Some("EUR") ==> ToggledCurrency(p) == "USD"
    ensures ActiveCurrency(p) != "EUR" ==> ToggledCurrency(p) == "EUR"
    ensures p.currency.None? || p.currency == Some("") ==> ToggledCurrency(p) == ActiveCurrency(p) == "EUR"
    ensures ToggledCurrency(Pref(Some(ToggledCurrency(p)))) != ToggledCurrency(p)
  {
  }

  // ---------------------------------------------------------------------------
  // Lines
  // ---------------------------------------------------------------------------

  function SameKey(slug: string, size: string, currency: string): Line -> bool {
    (l: Line) => l.slug == slug && l.size == size && l.currency == currency
  }

  function Bump(l: Line): Line {
    l.(qty := l.qty + 1)
  }

  function NewLine(p: Product, size: string, currency: string, cents: int): Line {
    Line(p.slug, p.code, p.nameEn, p.nameFr, size, 1, currency, cents)
  }

  /** The lines after adding product `p` in `size` and `currency` at `cents`. */
  function Added(items: seq<Line>, p: Product, size: string, currency: string, cents: int): seq<Line> {
    Merge(items, SameKey(p.slug, size, currency), Bump, NewLine(p, size, currency, cents))
  }

  function Qty(l: Line): int {
    l.qty
  }

  function LineTotal(l: Line): int {
    l.unitAmount * l.qty
  }

  /** The badge: `items.reduce((a, i) => a + i.qty, 0)`. */
  function BadgeCount(items: seq<Line>): int {
    Sum(items, Qty)
  }

  /** The badge is displayed only when its count is positive. */
  predicate BadgeShown(items: seq<Line>) {
    BadgeCount(items) > 0
  }

  /** The subtotal: `items.reduce((sum, it) => sum + it.unit_amount * it.qty, 0)`. */
  function Subtotal(items: seq<Line>): int {
    Sum(items, LineTotal)
  }

  /** The lines after adding `p` in `size` from a page drawn under `pref`:
      the key's currency is the shown one, and a new line costs the price
      the page computed for it. */
  function AddedFromPage(items: seq<Line>, p: Product, size: string, pref: Pref): seq<Line> {
    var currency := ActiveCurrency(pref);
    Added(items, p, size, currency, CalcItemPrice(p, currency))
  }

  /** Every line holds at least one unit (what add-to-cart produces). */
  predicate WellFormed(items: seq<Line>) {
    forall j :: 0 <= j < |items| ==> items[j].qty >= 1
  }

  /** Add-to-cart: a line with the same slug, size and currency gains exactly
      one unit and nothing else changes; otherwise one line with one unit at
      the current price is appended after the untouched earlier lines. */
  lemma AddedMergesOrAppends(items: seq<Line>, p: Product, size: string, currency: string, cents: int)
    ensures (exists j :: 0 <= j < |items| && SameKey(p.slug, size, currency)(items[j])) ==>
      var k := FirstIndex(items, SameKey(p.slug, size, currency)).value;
      var r := Added(items, p, size, currency, cents);
      |r| == |items| && r[k] == items[k].(qty := items[k].qty + 1)
      && items[k].slug == p.slug && items[k].size == size && items[k].currency == currency
      && forall j :: 0 <= j < |items| && j != k ==> r[j] == items[j]
    ensures (forall j :: 0 <= j < |items| ==> !SameKey(p.slug, size, currency)(items[j])) ==>
      Added(items, p, size, currency, cents)
        == items + [Line(p.slug, p.code, p.nameEn, p.nameFr, size, 1, currency, cents)]
  {
  }

  lemma BumpTotal(l: Line)
    ensures LineTotal(Bump(l)) == LineTotal(l) + l.unitAmount
  {
    assert l.unitAmount * (l.qty + 1) == l.unitAmount * l.qty + l.unitAmount;
  }

  /** Adding raises the badge by exactly one, and the subtotal by the unit
      price of the merged line or, for a new line, by the current price. */
  lemma AddedTotals(items: seq<Line>, p: Product, size: string, currency: string, cents: int)
    ensures BadgeCount(Added(items, p, size, currency, cents)) == BadgeCount(items) + 1
    ensures FirstIndex(items, SameKey(p.slug, size, currency)).Some? ==>
      Subtotal(Added(items, p, size, currency, cents))
        == Subtotal(items) + items[FirstIndex(items, SameKey(p.slug, size, currency)).value].unitAmount
    ensures FirstIndex(items, SameKey(p.slug, size, currency)).None? ==>
      Subtotal(Added(items, p, size, currency, cents)) == Subtotal(items) + cents
  {
    var m := SameKey(p.slug, size, currency);
    var fresh_line := NewLine(p, size, currency, cents);
    SumMerge(items, m, Bump, fresh_line, Qty);
    SumMerge(items, m, Bump, fresh_line, LineTotal);
    match FirstIndex(items, m)
    case Some(k) => BumpTotal(items[k]);
    case None =>
  }

  /** Adding from a product page: the line's currency is the shown one
      (never empty, EUR without a stored choice); a new line is appended
      with one unit at `calcItemPrice` of the product in that currency and
      raises the subtotal by that price; a merged line already holds that
      currency and raises the subtotal by its own unit price. */
  lemma AddsAtPagePrice(items: seq<Line>, p: Product, size: string, pref: Pref)
    ensures ActiveCurrency(pref) != ""
    ensures pref.currency.None? ==> ActiveCurrency(pref) == "EUR"
    ensures var cur := ActiveCurrency(pref);
      var r := AddedFromPage(items, p, size, pref);
      FirstIndex(items, SameKey(p.slug, size, cur)).None? ==>
        |r| == |items| + 1 && r[..|items|] == items
        && r[|items|].slug == p.slug && r[|items|].size == size && r[|items|].qty == 1
        && r[|items|].currency == cur && r[|items|].unitAmount == CalcItemPrice(p, cur)
        && Subtotal(r) == Subtotal(items) + CalcItemPrice(p, cur)
    ensures var cur := ActiveCurrency(pref);
      var r := AddedFromPage(items, p, size, pref);
      var k := FirstIndex(items, SameKey(p.slug, size, cur));
      k.Some? ==>
        items[k.value].currency == cur
        && Subtotal(r) == Subtotal(items) + items[k.value].unitAmount
  {
    var cur := ActiveCurrency(pref);
    var cents := CalcItemPrice(p, cur);
    AddedMergesOrAppends(items, p, size, cur, cents);
    AddedTotals(items, p, size, cur, cents);
    var r := AddedFromPage(items, p, size, pref);
    if FirstIndex(items, SameKey(p.slug, size, cur)).None? {
      assert r == items + [NewLine(p, size, cur, cents)];
    }
  }

  /** Removing the line at an in-range index takes its units off the badge and
      its total off the subtotal. */
  lemma RemovedTotals(items: seq<Line>, i: int)
    requires 0 <= i < |items|
    ensures BadgeCount(SpliceRemove(items, i)) == BadgeCount(items) - items[i].qty
    ensures Subtotal(SpliceRemove(items, i)) == Subtotal(items) - items[i].unitAmount * items[i].qty
  {
    SumSplice(items, i, Qty);
    SumSplice(items, i, LineTotal);
  }

  lemma AddedWellFormed(items: seq<Line>, p: Product, size: string, currency: string, cents: int)
    requires WellFormed(items)
    ensures WellFormed(Added(items, p, size, currency, cents))
  {
  }

  lemma RemovedWellFormed(items: seq<Line>, i: int)
    requires WellFormed(items)
    ensures WellFormed(SpliceRemove(items, i))
  {
    SpliceRemoveSpec(items, i);
    var r := SpliceRemove(items, i);
    if SpliceStart(i, |items|) < |items| {
      var k := SpliceStart(i, |items|);
      assert forall j :: 0 <= j < |r| ==> r[j] == (if j < k then items[j] else items[j + 1]);
    }
  }

  /** Adding and removing keep every line at one unit or more, and then the
      badge is shown exactly when the cart has a line. */
  lemma WellFormedKept(items: seq<Line>, p: Product, size: string, currency: string, cents: int, i: int)
    requires WellFormed(items)
    ensures WellFormed(Added(items, p, size, currency, cents))
    ensures WellFormed(SpliceRemove(items, i))
    ensures BadgeShown(items) <==> items != []
  {
    AddedWellFormed(items, p, size, currency, cents);
    RemovedWellFormed(items, i);
    assert forall j :: 0 <= j < |items| ==> Qty(items[j]) >= 1;
    SumPositive(items, Qty);
  }

  // ---------------------------------------------------------------------------
  // The stored cart
  // ---------------------------------------------------------------------------

  /** The cart object kept in browser storage. */
  datatype StoredCart = StoredCart(items: seq<Line>, email: string, lang: string)

  /** `getCart()`: the stored cart, or an empty English cart when nothing is
      stored or the stored text is not JSON (both given as None). */
  function GetCart(stored: Option<StoredCart>): (c: StoredCart)
    ensures stored.None? ==> c.items == [] && c.email == "" && c.lang == "en"
    ensures stored.Some? ==> c == stored.value
  {
    if stored.Some? then stored.value else StoredCart([], "", "en")
  }

  /** The cart as the page scripts hold and change it; `Snapshot()` is what
      `setCart` writes back. */
  class Cart {
    var items: seq<Line>
    var email: string
    var lang: string

    function Snapshot(): StoredCart
      reads this
    {
      StoredCart(items, email, lang)
    }

    constructor Load(stored: Option<StoredCart>)
      ensures Snapshot() == GetCart(stored)
    {
      var c := GetCart(stored);
      items, email, lang := c.items, c.email, c.lang;
    }

    /** initGlobal: the cart records the language of the current path. */
    method SyncLang(path: string)
      modifies this`lang
      ensures Snapshot() == old(Snapshot()).(lang := Locale.LangFromPath(path))
    {
      lang := Locale.LangFromPath(path);
    }

    /** `addToCart` on a product page drawn under the preference `pref`
        (`getPref()` as read when the page was drawn): the line is keyed by
        the shown currency and priced by `calcItemPrice` in it. */
    method AddToCart(p: Product, pref: Pref, selected: string)
      modifies this`items
      ensures RequireSize(p.category, selected).None? ==> items == old(items)
      ensures RequireSize(p.category, selected).Some? ==>
        items == AddedFromPage(old(items), p, RequireSize(p.category, selected).value, pref)
    {
      var currency := ActiveCurrency(pref);
      var cents := CalcItemPrice(p, currency);
      var size := RequireSize(p.category, selected);
      if size.None? {
        return;
      }
      var k := FindIndex(items, SameKey(p.slug, size.value, currency));
      if k.Some? {
        items := items[k.value := Bump(items[k.value])];
      } else {
        items := items + [NewLine(p, size.value, currency, cents)];
      }
    }

    /** The remove button: `c.items.splice(i, 1)`. */
    method RemoveAt(i: int)
      modifies this`items
      ensures items == SpliceRemove(old(items), i)
    {
      var k := SpliceStart(i, |items|);
      if k < |items| {
        items := items[..k] + items[k + 1..];
      }
    }

    /** `callPay`: a blank email alerts and sends nothing; otherwise the
        trimmed email is stored in the cart and the request is built from
        the cart's lines. */
    method CallPay(emailInput: string, lang: string, currency: string, gateway: string)
      returns (req: Option<PayRequest>)
      modifies this`email
      ensures Trim(emailInput) == [] ==> req.None? && email == old(email)
      ensures Trim(emailInput) != [] ==>
        email == Trim(emailInput)
        && req == Some(PayRequest(PayEndpoint(gateway), BuildPayload(Trim(emailInput), currency, lang, items)))
    {
      var e := Trim(emailInput);
      if e == [] {
        return None;
      }
      email := e;
      req := Some(PayRequest(PayEndpoint(gateway), BuildPayload(e, currency, lang, items)));
    }
  }

  // ---------------------------------------------------------------------------
  // Checkout request and response
  // ---------------------------------------------------------------------------

  datatype PayItem = PayItem(name: string, unitAmount: int, quantity: int)

  datatype Payload = Payload(
    customerEmail: string, currency: string, items: seq<PayItem>,
    successPath: string, cancelPath: string)

  datatype PayRequest = PayRequest(endpoint: string, payload: Payload)

  function PayEndpoint(gateway: string): string {
    if gateway == "stripe" then "/api/checkout/stripe" else "/api/checkout/paypal"
  }

  /** The product name in the page language, with " (EU <size>)" for a sized line. */
  function ItemName(lang: string, l: Line): string {
    (if lang == "fr" then l.nameFr else l.nameEn) + (if l.size != "" then " (EU " + l.size + ")" else "")
  }

  function ToPayItem(lang: string, l: Line): PayItem {
    PayItem(ItemName(lang, l), l.unitAmount, l.qty)
  }

  /** The request body `callPay` posts. */
  function BuildPayload(email: string, currency: string, lang: string, items: seq<Line>): (p: Payload)
    ensures |p.items| == |items|
    ensures forall j :: 0 <= j < |items| ==> p.items[j] == ToPayItem(lang, items[j])
  {
    Payload(email, currency, seq(|items|, j requires 0 <= j < |items| => ToPayItem(lang, items[j])),
      "/" + lang + "/order/success/", "/" + lang + "/order/failed/")
  }

  /** Each payload item copies its line's unit price and quantity in order,
      and its name carries the size suffix exactly when the line has a size;
      the return paths are under the page language. */
  lemma PayloadFollowsCart(email: string, currency: string, lang: string, items: seq<Line>, j: int)
    requires 0 <= j < |items|
    ensures var it := BuildPayload(email, currency, lang, items).items[j];
      it.unitAmount == items[j].unitAmount && it.quantity == items[j].qty
      && (items[j].size == "" ==> it.name == (if lang == "fr" then items[j].nameFr else items[j].nameEn))
      && (items[j].size != "" ==>
            EndsWith(it.name, " (EU " + items[j].size + ")")
            && StartsWith(it.name, if lang == "fr" then items[j].nameFr else items[j].nameEn))
    ensures BuildPayload(email, currency, lang, items).successPath == "/" + lang + "/order/success/"
    ensures BuildPayload(email, currency, lang, items).cancelPath == "/" + lang + "/order/failed/"
  {
  }

  /** The payload as the server parses it back from JSON. */
  function PayloadJson(p: Payload): Json {
    JObj(map[
      "customer_email" := JStr(p.customerEmail),
      "currency" := JStr(p.currency),
      "items" := JArr(seq(|p.items|, j requires 0 <= j < |p.items| => PayItemJson(p.items[j]))),
      "success_path" := JStr(p.successPath),
      "cancel_path" := JStr(p.cancelPath)])
  }

  function PayItemJson(it: PayItem): Json {
    JObj(map["name" := JStr(it.name), "unit_amount" := JNum(it.unitAmount), "quantity" := JNum(it.quantity)])
  }

  /** The tail of `callPay`: every failure is caught and alerted; a non-2xx
      answer alerts its text; a 2xx answer navigates to `url || approve_url`
      and alerts when neither is set. */
  function HandlePayResponse(lang: string, r: PayResponse): (o: PayOutcome)
    ensures !o.Unhandled?
    ensures o.Navigate? ==> r.Received? && 200 <= r.status < 300 && r.json.Ok?
    ensures r.Received? && !(200 <= r.status < 300) ==> o == Alert(ErrorPrefix(lang) + r.text)
    ensures r.FetchFailed? ==> o == Alert(ErrorPrefix(lang) + r.message)
    ensures r.Received? && 200 <= r.status < 300 && r.json.Err? ==> o == Alert(ErrorPrefix(lang) + r.json.message)
    ensures r.Received? && 200 <= r.status < 300 && r.json.Ok? && Prop(Some(r.json.value), "url").Ok? ==>
      var u := Or(Prop(Some(r.json.value), "url").value, Get(r.json.value, "approve_url"));
      (Truthy(u) ==> o == Navigate(JsString(u)))
      && (!Truthy(u) ==> o == Alert(ErrorPrefix(lang) + "Invalid server response"))
  {
    match r
    case FetchFailed(msg) => Alert(ErrorPrefix(lang) + msg)
    case Received(status, text, json) =>
      if !(200 <= status < 300) then Alert(ErrorPrefix(lang) + text)
      else match json
        case Err(msg) => Alert(ErrorPrefix(lang) + msg)
        case Ok(data) =>
          match Prop(Some(data), "url")
          case Err(msg) => Alert(ErrorPrefix(lang) + msg)
          case Ok(u) =>
            var url := Or(u, Get(data, "approve_url"));
            if Truthy(url) then Navigate(JsString(url))
            else Alert(ErrorPrefix(lang) + "Invalid server response")
  }

  /** A 2xx answer carrying a non-empty string `url` (Stripe) or, with a
      missing or falsy `url`, a non-empty `approve_url` (PayPal) sends the
      browser there verbatim; with neither, it alerts. */
  lemma PayResponseRedirects(lang: string, status: int, text: string, fields: map<string, Json>, target: string)
    requires 200 <= status < 300 && target != ""
    requires ("url" in fields && fields["url"] == JStr(target))
      || (("url" !in fields || !Truthy(Some(fields["url"])))
          && "approve_url" in fields && fields["approve_url"] == JStr(target))
    ensures HandlePayResponse(lang, Received(status, text, Ok(JObj(fields)))) == Navigate(target)
    ensures HandlePayResponse(lang, Received(status, text, Ok(JObj(fields - {"url", "approve_url"}))))
      == Alert(ErrorPrefix(lang) + "Invalid server response")
  {
  }
}
