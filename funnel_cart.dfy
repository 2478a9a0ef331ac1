/** The cart and checkout logic of the funnel storefront script
    (ALTURA_SERVER/site/assets/app.js): automatic language detection and
    redirect, the language switch, price lookup from the catalog, add-to-cart
    with merge, remove by index, badge and catalog-priced subtotal, and the
    checkout request. Its lines keep no price: prices come from the catalog
    whenever they are shown. */
module FunnelCart {
  import opened JsBuiltins
  import opened JsonValues
  import opened CartLines
  import Locale

  /** A catalog product as this script reads it; a missing flat price is None
      (the script has no `|| 0` fallback, so it computes with `undefined`). */
  datatype Product = Product(
    slug: string, code: string, nameEn: string, nameFr: string, category: string,
    priceUsd: Option<int>, priceEur: Option<int>)

  /** A stored cart line; the key of a line is (slug, size, currency). */
  datatype Line = Line(
    slug: string, code: string, nameEn: string, nameFr: string,
    size: string, qty: int, currency: string)

  // ---------------------------------------------------------------------------
  // Language detection and switching
  // ---------------------------------------------------------------------------

  /** `detectBrowserLanguage`: the first non-empty of `navigator.language` and
      `navigator.userLanguage` (absent given as ""), defaulting to "en";
      "fr" exactly when that starts with "fr". */
  function DetectBrowserLanguage(language: string, userLanguage: string): (lang: string)
    ensures lang == "fr" || lang == "en"
    ensures lang == "fr" <==> StartsWith(if language != "" then language else userLanguage, "fr")
  {
    var nav := if language != "" then language else userLanguage;
    if nav == "" then "en"
    else if StartsWith(nav, "fr") then "fr" else "en"
  }

  /** `shouldAutoDetectLanguage`: the path carries no language prefix and no
      language is saved (`saved` is None when nothing is stored or storage
      throws; an empty saved string is falsy too). */
  function ShouldAutoDetect(path: string, saved: Option<string>): (b: bool)
    ensures b <==> !Locale.HasLangPrefix(path) && (saved.None? || saved.value == "")
  {
    var hasLang := StartsWith(path, "/en") || StartsWith(path, "/fr");
    !hasLang && !(saved.Some? && saved.value != "")
  }

  /** The path part of the automatic redirect: the detected language in front
      of the path, the bare root collapsing to "/<lang>". */
  function RedirectPath(path: string, detected: string): string {
    "/" + detected + (if path == "/" then "" else path)
  }

  /** What `autoRedirectToLanguage` does: the language it saves and the
      address it navigates to, or nothing. */
  datatype Redirect = Redirect(saved: string, href: string)

  function AutoRedirect(path: string, search: string, saved: Option<string>,
                        language: string, userLanguage: string): (r: Option<Redirect>)
    ensures r.Some? <==> ShouldAutoDetect(path, saved)
    ensures r.Some? ==>
      var detected := DetectBrowserLanguage(language, userLanguage);
      r.value.saved == detected && r.value.href == RedirectPath(path, detected) + search
  {
    if !ShouldAutoDetect(path, saved) then None
    else
      var detected := DetectBrowserLanguage(language, userLanguage);
      Some(Redirect(detected, RedirectPath(path, detected) + search))
  }

  /** The redirect lands on a path in the detected language that carries a
      language prefix, so the next page load never redirects again, whatever
      is saved; the original path follows the prefix unchanged. */
  lemma RedirectSettles(path: string, saved: Option<string>, language: string, userLanguage: string)
    ensures var detected := DetectBrowserLanguage(language, userLanguage);
      var target := RedirectPath(path, detected);
      Locale.LangFromPath(target) == detected
      && Locale.HasLangPrefix(target)
      && (forall s :: !ShouldAutoDetect(target, s))
      && (path != "/" ==> target[3..] == path)
  {
    var detected := DetectBrowserLanguage(language, userLanguage);
    var rest := if path == "/" then "" else path;
    var target := RedirectPath(path, detected);
    assert target == "/" + detected + rest;
    assert target[..3] == "/" + detected;
    assert target[3..] == rest;
    if detected == "fr" {
      assert StartsWith(target, "/fr");
    } else {
      assert StartsWith(target, "/en") && !StartsWith(target, "/fr");
    }
  }

  /** The language-switch click: the button's target (absent given as "") or
      else the other language of the page. */
  function SwitchTarget(attribute: string, lang: string): string {
    if attribute != "" then attribute else if lang == "en" then "fr" else "en"
  }

  /** A switch button without a target on a page with a language prefix leads
      to the same path in the other language. */
  lemma SwitchWithoutTargetFlips(path: string, search: string)
    requires Locale.HasLangPrefix(path)
    ensures var target := SwitchTarget("", Locale.LangFromPath(path));
      target != Locale.LangFromPath(path)
      && Locale.LangFromPath(Locale.SwitchedLocation(path, search, target)) == target
  {
    var target := SwitchTarget("", Locale.LangFromPath(path));
    var loc := Locale.SwitchedLocation(path, search, target);
    assert loc == "/" + target + path[3..] + search;
    assert loc[..3] == "/" + target;
    if target == "fr" {
      assert StartsWith(loc, "/fr");
    } else {
      assert loc[1] == 'e';
    }
  }

  // ---------------------------------------------------------------------------
  // Prices
  // ---------------------------------------------------------------------------

  /** `calcItemPrice`: the flat USD price for "USD", the flat EUR price for
      every other currency; there is no per-currency table and no default. */
  function CalcItemPrice(p: Product, currency: string): (cents: Option<int>)
    ensures currency == "USD" ==> cents == p.priceUsd
    ensures currency != "USD" ==> cents == p.priceEur
  {
    if currency == "USD" then p.priceUsd else p.priceEur
  }

  function HasSlug(slug: string): Product -> bool {
    (p: Product) => p.slug == slug
  }

  /** The price a line is shown at: the catalog product with its slug, priced
      in `currency`; 0 when the catalog has no such product; None (NaN) when
      the product has no price in that currency. */
  function LinePrice(catalog: seq<Product>, slug: string, currency: string): (cents: Option<int>)
    ensures (forall k :: 0 <= k < |catalog| ==> catalog[k].slug != slug) ==> cents == Some(0)
    ensures forall k ::
      (0 <= k < |catalog| && catalog[k].slug == slug && (forall k' :: 0 <= k' < k ==> catalog[k'].slug != slug))
      ==> cents == CalcItemPrice(catalog[k], currency)
  {
    match FirstIndex(catalog, HasSlug(slug))
    case None => Some(0)
    case Some(k) =>
      assert forall k' ::
        (0 <= k' < |catalog| && catalog[k'].slug == slug && (forall k'' :: 0 <= k'' < k' ==> catalog[k''].slug != slug))
        ==> k' == k by {
        forall k' | 0 <= k' < |catalog| && catalog[k'].slug == slug
          && (forall k'' :: 0 <= k'' < k' ==> catalog[k''].slug != slug)
          ensures k' == k
        {
          assert HasSlug(slug)(catalog[k']);
          assert !(k < k') by { assert HasSlug(slug)(catalog[k]); }
        }
      }
      CalcItemPrice(catalog[k], currency)
  }

  /** `sum + pr * it.qty` over the lines, NaN (None) absorbing. */
  function Subtotal(catalog: seq<Product>, items: seq<Line>, currency: string): Option<int> {
    if items == [] then Some(0)
    else
      var rest := Subtotal(catalog, items[..|items| - 1], currency);
      var last := items[|items| - 1];
      var price := LinePrice(catalog, last.slug, currency);
      if rest.Some? && price.Some? then Some(rest.value + price.value * last.qty) else None
  }

  /** A line's total when its price is known, 0 otherwise. */
  function KnownTotal(catalog: seq<Product>, currency: string): Line -> int {
    (l: Line) => var price := LinePrice(catalog, l.slug, currency); if price.Some? then price.value * l.qty else 0
  }

  /** The line's product is in the catalog without a price in the currency. */
  function Unpriced(catalog: seq<Product>, currency: string): Line -> bool {
    (l: Line) => LinePrice(catalog, l.slug, currency).None?
  }

  /** The subtotal is NaN exactly when some line's product is in the catalog
      without a price in the currency; otherwise it is the sum of catalog
      price times quantity, lines missing from the catalog counting 0. */
  lemma {:induction false} SubtotalSpec(catalog: seq<Product>, items: seq<Line>, currency: string)
    ensures Subtotal(catalog, items, currency).None? <==> Any(items, Unpriced(catalog, currency))
    ensures Subtotal(catalog, items, currency).Some? ==>
      Subtotal(catalog, items, currency).value == Sum(items, KnownTotal(catalog, currency))
    decreases |items|
  {
    if items != [] {
      SubtotalSpec(catalog, items[..|items| - 1], currency);
      AnyInit(items, Unpriced(catalog, currency));
    }
  }

  // ---------------------------------------------------------------------------
  // Lines
  // ---------------------------------------------------------------------------

  function SameKey(slug: string, size: string, currency: string): Line -> bool {
    (l: Line) => l.slug == slug && l.size == size && l.currency == currency
  }

  function Bump(l: Line): Line {
    l.(qty := l.qty + 1)
  }

  function NewLine(p: Product, size: string, currency: string): Line {
    Line(p.slug, p.code, p.nameEn, p.nameFr, size, 1, currency)
  }

  /** The lines after adding product `p` in `size` and `currency`. */
  function Added(items: seq<Line>, p: Product, size: string, currency: string): seq<Line> {
    Merge(items, SameKey(p.slug, size, currency), Bump, NewLine(p, size, currency))
  }

  function Qty(l: Line): int {
    l.qty
  }

  /** The badge: `items.reduce((a, i) => a + i.qty, 0)`, always displayed. */
  function BadgeCount(items: seq<Line>): int {
    Sum(items, Qty)
  }

  /** Add-to-cart merges on (slug, size, currency): a match gains one unit and
      nothing else changes; otherwise a one-unit line without a price is
      appended. Either way the badge rises by exactly one. */
  lemma AddedSpec(items: seq<Line>, p: Product, size: string, currency: string)
    ensures FirstIndex(items, SameKey(p.slug, size, currency)).Some? ==>
      var k := FirstIndex(items, SameKey(p.slug, size, currency)).value;
      var r := Added(items, p, size, currency);
      |r| == |items| && r[k] == items[k].(qty := items[k].qty + 1)
      && forall j :: 0 <= j < |items| && j != k ==> r[j] == items[j]
    ensures FirstIndex(items, SameKey(p.slug, size, currency)).None? ==>
      Added(items, p, size, currency) == items + [Line(p.slug, p.code, p.nameEn, p.nameFr, size, 1, currency)]
    ensures BadgeCount(Added(items, p, size, currency)) == BadgeCount(items) + 1
  {
    SumMerge(items, SameKey(p.slug, size, currency), Bump, NewLine(p, size, currency), Qty);
  }

  /** Removing the line at an in-range index deletes exactly that line and
      takes its units off the badge. */
  lemma RemovedSpec(items: seq<Line>, i: int)
    requires 0 <= i < |items|
    ensures SpliceRemove(items, i) == items[..i] + items[i + 1..]
    ensures BadgeCount(SpliceRemove(items, i)) == BadgeCount(items) - items[i].qty
  {
    SumSplice(items, i, Qty);
  }

  // ---------------------------------------------------------------------------
  // The cart and its checkout
  // ---------------------------------------------------------------------------

  /** The cart object kept in browser storage. */
  datatype StoredCart = StoredCart(items: seq<Line>, email: string, lang: string)

  /** `getCart()`: the stored cart, or an empty English cart when nothing is
      stored or the stored text is not JSON (both given as None). */
  function GetCart(stored: Option<StoredCart>): (c: StoredCart)
    ensures stored.None? ==> c.items == [] && c.email == "" && c.lang == "en"
    ensures stored.Some? ==> c == stored.value
  {
    if stored.Some? then stored.value else StoredCart([], "", "en")
  }

  datatype PayItem = PayItem(slug: string, code: string, qty: int, size: string)

  datatype Payload = Payload(
    lang: string, currency: string, email: string, phone: string,
    whatsappOptIn: bool, items: seq<PayItem>)

  datatype PayRequest = PayRequest(endpoint: string, payload: Payload)

  function ToPayItem(l: Line): PayItem {
    PayItem(l.slug, l.code, l.qty, l.size)
  }

  /** The request body `callPay` posts. */
  function BuildPayload(lang: string, currency: string, email: string, phone: string,
                        optIn: bool, items: seq<Line>): (p: Payload)
    ensures |p.items| == |items|
    ensures forall j :: 0 <= j < |items| ==> p.items[j] == ToPayItem(items[j])
  {
    Payload(lang, currency, email, phone, optIn,
      seq(|items|, j requires 0 <= j < |items| => ToPayItem(items[j])))
  }

  /** Each payload item copies its line's slug, code, quantity and size, in
      the cart's order; no price, no name. */
  lemma PayloadFollowsCart(lang: string, currency: string, email: string, phone: string,
                           optIn: bool, items: seq<Line>, j: int)
    requires 0 <= j < |items|
    ensures var it := BuildPayload(lang, currency, email, phone, optIn, items).items[j];
      it.slug == items[j].slug && it.code == items[j].code
      && it.qty == items[j].qty && it.size == items[j].size
  {
  }

  /** The endpoints the two pay buttons post to. */
  const StripeButtonEndpoint := "/api/stripe/checkout"
  const PaypalButtonEndpoint := "/api/paypal/order"

  /** The payload as the server parses it back from JSON. */
  function PayloadJson(p: Payload): Json {
    JObj(map[
      "lang" := JStr(p.lang),
      "currency" := JStr(p.currency),
      "email" := JStr(p.email),
      "phone" := JStr(p.phone),
      "whatsapp_opt_in" := JBool(p.whatsappOptIn),
      "items" := JArr(seq(|p.items|, j requires 0 <= j < |p.items| => PayItemJson(p.items[j])))])
  }

  function PayItemJson(it: PayItem): Json {
    JObj(map["slug" := JStr(it.slug), "code" := JStr(it.code), "qty" := JNum(it.qty), "size" := JStr(it.size)])
  }

  /** The tail of `callPay`: nothing catches a failed fetch or a body that is
      not JSON; a non-2xx answer alerts its text; a 2xx answer navigates to
      `data.url` and otherwise alerts. `approve_url` is not read. */
  function HandlePayResponse(lang: string, r: PayResponse): (o: PayOutcome)
    ensures o.Navigate? ==> r.Received? && 200 <= r.status < 300 && r.json.Ok?
    ensures r.Received? && !(200 <= r.status < 300) ==> o == Alert(ErrorPrefix(lang) + r.text)
    ensures r.FetchFailed? ==> o == Unhandled(r.message)
    ensures r.Received? && 200 <= r.status < 300 && r.json.Err? ==> o == Unhandled(r.json.message)
    ensures r.Received? && 200 <= r.status < 300 && r.json.Ok? ==>
      match Prop(Some(r.json.value), "url")
      case Err(m) => o == Unhandled(m)
      case Ok(u) =>
        (Truthy(u) ==> o == Navigate(JsString(u)))
        && (!Truthy(u) ==> o == Alert(if lang == "fr" then "Réponse de paiement invalide." else "Invalid payment response."))
  {
    match r
    case FetchFailed(msg) => Unhandled(msg)
    case Received(status, text, json) =>
      if !(200 <= status < 300) then Alert(ErrorPrefix(lang) + text)
      else match json
        case Err(msg) => Unhandled(msg)
        case Ok(data) =>
          match Prop(Some(data), "url")
          case Err(msg) => Unhandled(msg)
          case Ok(u) =>
            if Truthy(u) then Navigate(JsString(u))
            else Alert(if lang == "fr" then "Réponse de paiement invalide." else "Invalid payment response.")
  }

  /** The cart as the page scripts hold and change it. */
  class Cart {
    var items: seq<Line>
    var email: string
    var lang: string

    function Snapshot(): StoredCart
      reads this
    {
      StoredCart(items, email, lang)
    }

    constructor Load(stored: Option<StoredCart>)
      ensures Snapshot() == GetCart(stored)
    {
      var c := GetCart(stored);
      items, email, lang := c.items, c.email, c.lang;
    }

    /** initGlobal: the cart records the language of the current path. */
    method SyncLang(path: string)
      modifies this`lang
      ensures Snapshot() == old(Snapshot()).(lang := Locale.LangFromPath(path))
    {
      lang := Locale.LangFromPath(path);
    }

    /** `addToCart` on a product page for `p` shown in `currency`. */
    method AddToCart(p: Product, currency: string, selected: string)
      modifies this`items
      ensures RequireSize(p.category, selected).None? ==> items == old(items)
      ensures RequireSize(p.category, selected).Some? ==>
        items == Added(old(items), p, RequireSize(p.category, selected).value, currency)
    {
      var size := RequireSize(p.category, selected);
      if size.None? {
        return;
      }
      var k := FindIndex(items, SameKey(p.slug, size.value, currency));
      if k.Some? {
        items := items[k.value := Bump(items[k.value])];
      } else {
        items := items + [NewLine(p, size.value, currency)];
      }
    }

    /** The remove button: `c.items.splice(i, 1)`. */
    method RemoveAt(i: int)
      modifies this`items
      ensures items == SpliceRemove(old(items), i)
    {
      var k := SpliceStart(i, |items|);
      if k < |items| {
        items := items[..k] + items[k + 1..];
      }
    }

    /** `callPay(endpoint)`: the trimmed email is stored first, even when it
        is blank; a blank email then sends nothing; otherwise the request
        carries the trimmed email and phone and one item per line. */
    method CallPay(endpoint: string, emailInput: string, phoneInput: string, optIn: bool,
                   lang: string, currency: string)
      returns (req: Option<PayRequest>)
      modifies this`email
      ensures email == Trim(emailInput)
      ensures req.None? <==> Trim(emailInput) == []
      ensures req.Some? ==>
        req.value == PayRequest(endpoint,
          BuildPayload(lang, currency, Trim(emailInput), Trim(phoneInput), optIn, items))
    {
      email := Trim(emailInput);
      var e := Trim(emailInput);
      if e == [] {
        return None;
      }
      req := Some(PayRequest(endpoint, BuildPayload(lang, currency, e, Trim(phoneInput), optIn, items)));
    }
  }
}
