/** Each client's checkout request, as the server reads it: which endpoint
    the pay buttons reach, what the server charges for the cart, and what
    the client does with the answer. The storefront (ALTURA_SITE) and the
    server agree; the funnel client served by the server itself
    (ALTURA_SERVER/site/assets/app.js) posts to paths the server does not
    route, sends no prices, and ignores PayPal's approval link. The
    corrected funnel requests are defined and proved here. */
module CheckoutFlows {
  import opened JsBuiltins
  import opened JsonValues
  import opened CartLines
  import opened ServerHttp
  import opened ServerConfig
  import SiteCart
  import FunnelCart
  import StripeCheckout
  import PaypalCheckout

  /** Sums of two sequences agree when their terms agree pairwise. */
  lemma {:induction false} SumPairwise<A, B>(a: seq<A>, f: A -> int, b: seq<B>, g: B -> int)
    requires |a| == |b|
    requires forall j :: 0 <= j < |a| ==> f(a[j]) == g(b[j])
    ensures Sum(a, f) == Sum(b, g)
    decreases |a|
  {
    if a != [] {
      SumPairwise(a[..|a| - 1], f, b[..|b| - 1], g);
    }
  }

  // ---------------------------------------------------------------------------
  // The storefront
  // ---------------------------------------------------------------------------

  /** Both of the storefront's pay buttons reach their checkout endpoint. */
  lemma SiteEndpointsRouted(gateway: string)
    ensures var e := SiteCart.PayEndpoint(gateway);
      RouteOf("POST", e, e) == (if gateway == "stripe" then Route.StripeCheckout else Route.PaypalCheckout)
  {
    var e := SiteCart.PayEndpoint(gateway);
    assert e[..5] == "/api/";
  }

  /** The items the storefront posts, as the server parses them. */
  function SiteItems(p: SiteCart.Payload): seq<Json> {
    Get(SiteCart.PayloadJson(p), "items").value.elems
  }

  /** The posted items are the cart's lines, one JSON object each, in order. */
  lemma SiteItemsAt(email: string, currency: string, lang: string, items: seq<SiteCart.Line>)
    ensures var elems := SiteItems(SiteCart.BuildPayload(email, currency, lang, items));
      |elems| == |items|
      && forall j :: 0 <= j < |items| ==> elems[j] == SiteCart.PayItemJson(SiteCart.ToPayItem(lang, items[j]))
  {
  }

  lemma SiteItemCents(lang: string, l: SiteCart.Line)
    requires l.qty != 0
    ensures PaypalCheckout.ItemCents(SiteCart.PayItemJson(SiteCart.ToPayItem(lang, l))) == Some(l.unitAmount * l.qty)
  {
    var it := SiteCart.PayItemJson(SiteCart.ToPayItem(lang, l));
    assert Get(it, "unit_amount") == Some(JNum(l.unitAmount));
    assert Get(it, "quantity") == Some(JNum(l.qty));
    PaypalCheckout.ItemCentsOfNumbers(it, l.unitAmount, l.qty);
  }

  /** PayPal is asked for exactly the subtotal the storefront's cart shows. */
  lemma SitePaypalTotal(email: string, currency: string, lang: string, items: seq<SiteCart.Line>)
    requires SiteCart.WellFormed(items)
    ensures PaypalCheckout.TotalCents(SiteItems(SiteCart.BuildPayload(email, currency, lang, items)))
      == Ok(Some(SiteCart.Subtotal(items)))
  {
    var elems := SiteItems(SiteCart.BuildPayload(email, currency, lang, items));
    SiteItemsAt(email, currency, lang, items);
    forall j | 0 <= j < |items|
      ensures elems[j] != JNull
      ensures PaypalCheckout.ItemCents(elems[j]) == Some(SiteCart.LineTotal(items[j]))
    {
      SiteItemCents(lang, items[j]);
    }
    PaypalCheckout.TotalCentsSpec(elems);
    SumPairwise(elems, PaypalCheckout.Known(PaypalCheckout.ItemCents), items, SiteCart.LineTotal);
  }

  /** The Stripe line item the server makes of one posted storefront line. */
  lemma SiteLineItem(lang: string, l: SiteCart.Line, idx: nat)
    requires l.qty != 0
    ensures var li := StripeCheckout.ToLineItem(SiteCart.PayItemJson(SiteCart.ToPayItem(lang, l)), idx);
      li.Ok? && li.value.unitAmount == Some(l.unitAmount) && li.value.quantity == Some(l.qty)
  {
    ParseIntOfNumber(l.unitAmount);
    ParseIntOfNumber(l.qty);
  }

  /** Stripe is asked for one line per cart line, in order, at the line's
      unit price and quantity. */
  lemma SiteStripeLines(email: string, currency: string, lang: string, items: seq<SiteCart.Line>)
    requires SiteCart.WellFormed(items)
    ensures var lines := StripeCheckout.LineItems(SiteItems(SiteCart.BuildPayload(email, currency, lang, items)));
      lines.Ok? && |lines.value| == |items|
      && forall j :: 0 <= j < |items| ==>
        lines.value[j].unitAmount == Some(items[j].unitAmount) && lines.value[j].quantity == Some(items[j].qty)
  {
    var elems := SiteItems(SiteCart.BuildPayload(email, currency, lang, items));
    SiteItemsAt(email, currency, lang, items);
    forall j | 0 <= j < |items|
      ensures elems[j] != JNull
      ensures StripeCheckout.ToLineItem(elems[j], j).Ok?
      ensures StripeCheckout.ToLineItem(elems[j], j).value.unitAmount == Some(items[j].unitAmount)
      ensures StripeCheckout.ToLineItem(elems[j], j).value.quantity == Some(items[j].qty)
    {
      SiteLineItem(lang, items[j], j);
    }
    assert JNull !in elems;
  }

  // ---------------------------------------------------------------------------
  // The funnel: endpoints
  // ---------------------------------------------------------------------------

  /** As written, both funnel pay buttons post to paths the server answers
      with its 404 fallback. */
  lemma FunnelButtonsUnrouted()
    ensures RouteOf("POST", FunnelCart.StripeButtonEndpoint, FunnelCart.StripeButtonEndpoint) == Route.ApiNotFound
    ensures RouteOf("POST", FunnelCart.PaypalButtonEndpoint, FunnelCart.PaypalButtonEndpoint) == Route.ApiNotFound
  {
    assert FunnelCart.StripeButtonEndpoint[..5] == "/api/";
    assert FunnelCart.PaypalButtonEndpoint[..5] == "/api/";
    assert FunnelCart.StripeButtonEndpoint[5] == 's' && "/api/checkout/stripe"[5] == 'c';
    assert FunnelCart.PaypalButtonEndpoint[5] == 'p' && "/api/checkout/paypal"[5] == 'c';
  }

  /** The paths the funnel's buttons should post to. */
  const FunnelStripeEndpoint := "/api/checkout/stripe"
  const FunnelPaypalEndpoint := "/api/checkout/paypal"

  /** The corrected buttons reach the two checkout endpoints. */
  lemma FunnelEndpointsRouted()
    ensures RouteOf("POST", FunnelStripeEndpoint, FunnelStripeEndpoint) == Route.StripeCheckout
    ensures RouteOf("POST", FunnelPaypalEndpoint, FunnelPaypalEndpoint) == Route.PaypalCheckout
  {
    assert FunnelStripeEndpoint[..5] == "/api/";
    assert FunnelPaypalEndpoint[..5] == "/api/";
  }

  // ---------------------------------------------------------------------------
  // The funnel: prices
  // ---------------------------------------------------------------------------

  /** The items the funnel posts, as the server parses them. */
  function FunnelItems(p: FunnelCart.Payload): seq<Json> {
    Get(FunnelCart.PayloadJson(p), "items").value.elems
  }

  /** As written, a funnel item has no `unit_amount` and no `quantity`:
      PayPal would be sent the amount "NaN" for any cart, and every Stripe
      line would carry the price "NaN" and the quantity 1 whatever the
      line's quantity. */
  lemma FunnelPayloadUnpriced(p: FunnelCart.Payload)
    requires p.items != []
    ensures PaypalCheckout.TotalCents(FunnelItems(p)) == Ok(None)
    ensures PaypalCheckout.TotalText(None) == "NaN"
    ensures var lines := StripeCheckout.LineItems(FunnelItems(p));
      lines.Ok? && forall j :: 0 <= j < |lines.value| ==>
        lines.value[j].unitAmount.None? && lines.value[j].quantity == Some(1)
  {
    FunnelTotalUnpriced(p);
    FunnelLinesUnpriced(p);
  }

  lemma FunnelTotalUnpriced(p: FunnelCart.Payload)
    requires p.items != []
    ensures PaypalCheckout.TotalCents(FunnelItems(p)) == Ok(None)
    ensures PaypalCheckout.TotalText(None) == "NaN"
  {
    FunnelItemsUnpriced(p);
    var elems := FunnelItems(p);
    assert PaypalCheckout.ItemCents(elems[0]).None?;
    PaypalCheckout.TotalCentsSpec(elems);
  }

  lemma FunnelLinesUnpriced(p: FunnelCart.Payload)
    ensures var lines := StripeCheckout.LineItems(FunnelItems(p));
      lines.Ok? && forall j :: 0 <= j < |lines.value| ==>
        lines.value[j].unitAmount.None? && lines.value[j].quantity == Some(1)
  {
    FunnelItemsUnpriced(p);
  }

  lemma FunnelItemsUnpriced(p: FunnelCart.Payload)
    ensures forall j :: 0 <= j < |FunnelItems(p)| ==>
      FunnelItems(p)[j] != JNull && PaypalCheckout.ItemCents(FunnelItems(p)[j]).None?
      && StripeCheckout.ToLineItem(FunnelItems(p)[j], j).value.quantity == Some(1)
  {
    var elems := FunnelItems(p);
    forall j | 0 <= j < |elems|
      ensures elems[j] != JNull && PaypalCheckout.ItemCents(elems[j]).None?
      ensures StripeCheckout.ToLineItem(elems[j], j).value.quantity == Some(1)
    {
      assert elems[j] == FunnelCart.PayItemJson(p.items[j]);
      FunnelItemUnpriced(p.items[j], j);
    }
  }

  lemma FunnelItemUnpriced(it: FunnelCart.PayItem, idx: nat)
    ensures PaypalCheckout.ItemCents(FunnelCart.PayItemJson(it)).None?
    ensures StripeCheckout.ToLineItem(FunnelCart.PayItemJson(it), idx).value.quantity == Some(1)
  {
    var j := FunnelCart.PayItemJson(it);
    assert Get(j, "unit_amount") == None && Get(j, "quantity") == None;
    NoUnitAmount(j);
    ParseIntOfNumber(1);
  }

  lemma NoUnitAmount(j: Json)
    requires Get(j, "unit_amount") == None
    ensures PaypalCheckout.ItemCents(j).None?
  {
    ParseIntOfNonNumeric(None);
  }

  /** The catalogue price of a funnel line, as the cart computes it, or
      null when the product has none in the currency. */
  function PriceJson(catalog: seq<FunnelCart.Product>, currency: string, l: FunnelCart.Line): Json {
    var price := FunnelCart.LinePrice(catalog, l.slug, currency);
    if price.Some? then JNum(price.value) else JNull
  }

  /** The corrected funnel item: its fields as posted, plus the name, the
      catalogue unit price and the quantity under the keys the server reads. */
  function CheckoutItemJson(catalog: seq<FunnelCart.Product>, currency: string, lang: string,
                            l: FunnelCart.Line): Json {
    JObj(map[
      "slug" := JStr(l.slug), "code" := JStr(l.code), "qty" := JNum(l.qty), "size" := JStr(l.size),
      "name" := JStr(if lang == "fr" then l.nameFr else l.nameEn),
      "unit_amount" := PriceJson(catalog, currency, l),
      "quantity" := JNum(l.qty)])
  }

  function CheckoutItems(catalog: seq<FunnelCart.Product>, currency: string, lang: string,
                         items: seq<FunnelCart.Line>): (r: seq<Json>)
    ensures |r| == |items|
    ensures forall j :: 0 <= j < |items| ==> r[j] == ItemOf(catalog, currency, lang)(items[j])
  {
    seq(|items|, j requires 0 <= j < |items| => ItemOf(catalog, currency, lang)(items[j]))
  }

  function ItemOf(catalog: seq<FunnelCart.Product>, currency: string, lang: string): FunnelCart.Line -> Json {
    (l: FunnelCart.Line) => CheckoutItemJson(catalog, currency, lang, l)
  }

  lemma CheckoutItemCents(catalog: seq<FunnelCart.Product>, currency: string, lang: string, l: FunnelCart.Line)
    requires l.qty != 0
    ensures var price := FunnelCart.LinePrice(catalog, l.slug, currency);
      PaypalCheckout.ItemCents(CheckoutItemJson(catalog, currency, lang, l))
        == (if price.Some? then Some(price.value * l.qty) else None)
  {
    var price := FunnelCart.LinePrice(catalog, l.slug, currency);
    var it := CheckoutItemJson(catalog, currency, lang, l);
    assert Get(it, "unit_amount") == Some(PriceJson(catalog, currency, l));
    assert Get(it, "quantity") == Some(JNum(l.qty));
    if price.Some? {
      PaypalCheckout.ItemCentsOfNumbers(it, price.value, l.qty);
    } else {
      PaypalCheckout.ItemCentsOfNull(it);
    }
  }

  /** With the corrected items PayPal is asked for exactly the subtotal the
      funnel's cart shows, NaN included. */
  lemma FunnelPaypalTotal(catalog: seq<FunnelCart.Product>, currency: string, lang: string,
                          items: seq<FunnelCart.Line>)
    requires forall j :: 0 <= j < |items| ==> items[j].qty != 0
    ensures PaypalCheckout.TotalCents(CheckoutItems(catalog, currency, lang, items))
      == Ok(FunnelCart.Subtotal(catalog, items, currency))
  {
    var elems := CheckoutItems(catalog, currency, lang, items);
    forall j | 0 <= j < |items|
      ensures elems[j] != JNull
      ensures PaypalCheckout.ItemCents(elems[j]).None? <==> FunnelCart.LinePrice(catalog, items[j].slug, currency).None?
      ensures PaypalCheckout.Known(PaypalCheckout.ItemCents)(elems[j]) == FunnelCart.KnownTotal(catalog, currency)(items[j])
    {
      CheckoutItemCents(catalog, currency, lang, items[j]);
    }
    PaypalCheckout.TotalCentsSpec(elems);
    FunnelCart.SubtotalSpec(catalog, items, currency);
    var total := PaypalCheckout.TotalCents(elems);
    if total.value.Some? {
      SumPairwise(elems, PaypalCheckout.Known(PaypalCheckout.ItemCents), items, FunnelCart.KnownTotal(catalog, currency));
    }
  }

  // ---------------------------------------------------------------------------
  // The funnel: PayPal's answer
  // ---------------------------------------------------------------------------

  /** A PayPal checkout answer: the order id and its approval link. */
  function PaypalAnswer(id: string, href: string): Json {
    JObj(ObjOf([("id", Some(JStr(id))), ("approve_url", Some(JStr(href)))]))
  }

  /** As written, the funnel reads only `url`, so a created PayPal order
      ends in "Invalid payment response." instead of the approval page. */
  lemma FunnelIgnoresApproveUrl(lang: string, text: string, id: string, href: string)
    ensures FunnelCart.HandlePayResponse(lang, Received(200, text, Ok(PaypalAnswer(id, href)))).Alert?
  {
    var answer := PaypalAnswer(id, href);
  }

  /** The funnel's answer handling with the approval link read as the
      storefront reads it: `data.url || data.approve_url`. */
  function FunnelPayOutcome(lang: string, r: PayResponse): PayOutcome {
    match r
    case FetchFailed(msg) => Unhandled(msg)
    case Received(status, text, json) =>
      if !(200 <= status < 300) then Alert(ErrorPrefix(lang) + text)
      else match json
        case Err(msg) => Unhandled(msg)
        case Ok(data) =>
          match Prop(Some(data), "url")
          case Err(msg) => Unhandled(msg)
          case Ok(u) =>
            var url := Or(u, Get(data, "approve_url"));
            if Truthy(url) then Navigate(JsString(url))
            else Alert(if lang == "fr" then "Réponse de paiement invalide." else "Invalid payment response.")
  }

  /** Corrected, the funnel goes to PayPal's approval page, and still goes
      to Stripe's page for a Stripe answer. */
  lemma FunnelFollowsApproveUrl(lang: string, text: string, id: string, href: string, status: int, r: PayResponse)
    requires href != ""
    ensures FunnelPayOutcome(lang, Received(200, text, Ok(PaypalAnswer(id, href)))) == Navigate(href)
    ensures (r.Received? && 200 <= r.status < 300 && r.json.Ok? && r.json.value != JNull
      && Truthy(Get(r.json.value, "url"))) ==> FunnelPayOutcome(lang, r) == FunnelCart.HandlePayResponse(lang, r)
  {
    var answer := PaypalAnswer(id, href);
    ObjOfTwo("id", Some(JStr(id)), "approve_url", Some(JStr(href)));
  }
}
