/** The PayPal endpoint of the server (`POST /api/checkout/paypal` in
    ALTURA_SERVER/server/server.js): the order total in cents summed over
    the request's items, its `toFixed(2)` text, the OAuth token exchange,
    the order creation and the search for the approval link. */
module PaypalCheckout {
  import opened JsBuiltins
  import opened JsonValues
  import opened CartLines
  import opened ServerHttp
  import opened ServerConfig

  // ---------------------------------------------------------------------------
  // The total
  // ---------------------------------------------------------------------------

  /** `parseInt(it.unit_amount, 10) * parseInt(it.quantity || 1, 10)` for an
      item that is not null; NaN (None) when either does not parse. */
  function ItemCents(it: Json): Option<int> {
    var unit := ParseInt(Get(it, "unit_amount"));
    var qty := ParseInt(Or(Get(it, "quantity"), Some(JNum(1))));
    if unit.Some? && qty.Some? then Some(unit.value * qty.value) else None
  }

  /** An item whose price and quantity are numbers, the quantity non-zero,
      costs their product. */
  lemma ItemCentsOfNumbers(it: Json, unit: int, qty: int)
    requires Get(it, "unit_amount") == Some(JNum(unit))
    requires Get(it, "quantity") == Some(JNum(qty)) && qty != 0
    ensures ItemCents(it) == Some(unit * qty)
  {
    ParseIntOfNumber(unit);
    ParseIntOfNumber(qty);
  }

  /** An item whose price is null costs NaN. */
  lemma ItemCentsOfNull(it: Json)
    requires Get(it, "unit_amount") == Some(JNull)
    ensures ItemCents(it) == None
  {
    ParseIntOfNonNumeric(Some(JNull));
  }

  /** `items.reduce((sum, it) => sum + cents(it), 0)` for a callback that
      reads `it.unit_amount` first: reading a property of a null item
      throws, and NaN absorbs every later addition. */
  function Reduce(items: seq<Json>, cents: Json -> Option<int>): Result<Option<int>> {
    if items == [] then Ok(Some(0))
    else
      var it := items[|items| - 1];
      match Reduce(items[..|items| - 1], cents)
      case Err(m) => Err(m)
      case Ok(sum) =>
        if it == JNull then Err("Cannot read properties of null (reading 'unit_amount')")
        else
          var c := cents(it);
          Ok(if sum.Some? && c.Some? then Some(sum.value + c.value) else None)
  }

  /** The order total of the request's items. */
  function TotalCents(items: seq<Json>): Result<Option<int>> {
    Reduce(items, ItemCents)
  }

  /** An item's cents when they parse, 0 otherwise. */
  function Known(cents: Json -> Option<int>): Json -> int {
    (it: Json) => if cents(it).Some? then cents(it).value else 0
  }

  /** The reduce throws exactly when some item is null. */
  lemma {:induction false} ReduceThrows(items: seq<Json>, cents: Json -> Option<int>)
    ensures Reduce(items, cents).Err? <==> exists j :: 0 <= j < |items| && items[j] == JNull
    decreases |items|
  {
    if items != [] {
      var init := items[..|items| - 1];
      ReduceThrows(init, cents);
      assert forall j :: 0 <= j < |init| ==> init[j] == items[j];
    }
  }

  /** Without null items the total is NaN exactly when some item's cents
      are, and is the sum of the items' cents when none is. */
  lemma {:induction false} ReduceSpec(items: seq<Json>, cents: Json -> Option<int>)
    requires forall j :: 0 <= j < |items| ==> items[j] != JNull
    ensures Reduce(items, cents).Ok?
    ensures Reduce(items, cents).value.None? <==> exists j :: 0 <= j < |items| && cents(items[j]).None?
    ensures Reduce(items, cents).value.Some? ==> Reduce(items, cents).value.value == Sum(items, Known(cents))
    decreases |items|
  {
    if items != [] {
      var init := items[..|items| - 1];
      assert forall j :: 0 <= j < |init| ==> init[j] == items[j];
      ReduceSpec(init, cents);
    }
  }

  /** The total of the request's items: a null item throws; otherwise the
      total is NaN exactly when some item's price or quantity does not parse,
      and is the sum of price times quantity when all do. */
  lemma TotalCentsSpec(items: seq<Json>)
    ensures TotalCents(items).Err? <==> exists j :: 0 <= j < |items| && items[j] == JNull
    ensures TotalCents(items).Ok? ==>
      (TotalCents(items).value.None? <==> exists j :: 0 <= j < |items| && ItemCents(items[j]).None?)
    ensures TotalCents(items).Ok? && TotalCents(items).value.Some? ==>
      TotalCents(items).value.value == Sum(items, Known(ItemCents))
  {
    ReduceThrows(items, ItemCents);
    if TotalCents(items).Ok? {
      ReduceSpec(items, ItemCents);
    }
  }

  /** `(cents / 100).toFixed(2)`: an optional minus sign, the whole units,
      a point and exactly two digits of cents. */
  function FormatCents(c: int): string {
    (if c < 0 then "-" else "") + CentsBody(if c < 0 then -c else c)
  }

  /** The unsigned part of the text: whole units, a point, two digits. */
  function CentsBody(a: nat): string {
    NatToString(a / 100) + "." + [DigitChar(a % 100 / 10), DigitChar(a % 10)]
  }

  /** The total's text: NaN prints as "NaN". */
  function TotalText(total: Option<int>): string {
    if total.Some? then FormatCents(total.value) else "NaN"
  }

  /** Reads an amount written as an optional minus sign, digits, a point and
      two digits back into cents. */
  function ParseCents(t: string): Option<int> {
    var neg := t != [] && t[0] == '-';
    var body := if neg then t[1..] else t;
    if |body| >= 4 && body[|body| - 3] == '.' && AllDigits(body[..|body| - 3]) && AllDigits(body[|body| - 2..]) then
      var v := DigitsValue(body[..|body| - 3]) * 100 + DigitsValue(body[|body| - 2..]);
      Some(if neg then -v else v)
    else None
  }

  /** The body splits at its point into the whole units and two digits. */
  lemma CentsBodyParts(a: nat)
    ensures var body := CentsBody(a);
      |body| >= 4 && body[|body| - 3] == '.' && IsDigit(body[0])
      && body[..|body| - 3] == NatToString(a / 100)
      && body[|body| - 2..] == [DigitChar(a % 100 / 10), DigitChar(a % 10)]
  {
  }

  lemma TwoDigits(a: nat)
    ensures AllDigits([DigitChar(a % 100 / 10), DigitChar(a % 10)])
    ensures DigitsValue([DigitChar(a % 100 / 10), DigitChar(a % 10)]) == a % 100
  {
    var frac := [DigitChar(a % 100 / 10), DigitChar(a % 10)];
    assert frac[..1] == [frac[0]];
    assert DigitsValue([frac[0]]) == DigitValue(frac[0]);
  }

  /** The unsigned text reads back as its number. */
  lemma ParseCentsBody(a: nat)
    ensures ParseCents(CentsBody(a)) == Some(a)
  {
    CentsBodyParts(a);
    TwoDigits(a);
    DigitsValueOfNat(a / 100);
  }

  /** The amount PayPal is sent reads back as the total in cents, so no cent
      is lost or invented by the formatting. */
  lemma ParseFormatCents(c: int)
    ensures ParseCents(FormatCents(c)) == Some(c)
  {
    if c < 0 {
      CentsBodyParts(-c);
      ParseCentsBody(-c);
      ParseCentsMinus(CentsBody(-c), -c);
      assert FormatCents(c) == "-" + CentsBody(-c);
    } else {
      ParseCentsBody(c);
      assert FormatCents(c) == CentsBody(c);
    }
  }

  /** A minus sign before an unsigned amount negates it. */
  lemma ParseCentsMinus(body: string, v: int)
    requires body != [] && body[0] != '-' && ParseCents(body) == Some(v)
    ensures ParseCents("-" + body) == Some(-v)
  {
    var t := "-" + body;
    assert t[0] == '-' && t[1..] == body;
  }

  /** Different totals are sent as different amounts. */
  lemma FormatCentsInjective(c: int, d: int)
    requires FormatCents(c) == FormatCents(d)
    ensures c == d
  {
    ParseFormatCents(c);
    ParseFormatCents(d);
  }

  // ---------------------------------------------------------------------------
  // The approval link
  // ---------------------------------------------------------------------------

  /** `l.rel === 'approve'`. */
  predicate IsApprove(l: Json) {
    Get(l, "rel") == Some(JStr("approve"))
  }

  /** `links.find(l => l.rel === 'approve')`: the callback runs on each link
      in order until one matches; reading `rel` of a null link throws. */
  function FindApprove(links: seq<Json>): Result<Option<Json>> {
    if links == [] then Ok(None)
    else if links[0] == JNull then Err("Cannot read properties of null (reading 'rel')")
    else if IsApprove(links[0]) then Ok(Some(links[0]))
    else FindApprove(links[1..])
  }

  /** Where the search stops: at a match or at a null link. */
  predicate StopsFind(l: Json) {
    l == JNull || IsApprove(l)
  }

  /** The search ends at the first link that matches or is null: it throws
      when that link is null, finds it when it matches, and finds nothing
      when no link stops it. */
  lemma {:induction false} FindApproveSpec(links: seq<Json>)
    ensures FirstIndex(links, StopsFind).None? ==> FindApprove(links) == Ok(None)
    ensures FirstIndex(links, StopsFind).Some? && links[FirstIndex(links, StopsFind).value] == JNull ==>
      FindApprove(links).Err?
    ensures FirstIndex(links, StopsFind).Some? && links[FirstIndex(links, StopsFind).value] != JNull ==>
      FindApprove(links) == Ok(Some(links[FirstIndex(links, StopsFind).value]))
    decreases |links|
  {
    if links != [] && !StopsFind(links[0]) {
      FindApproveSpec(links[1..]);
      var rest := FirstIndex(links[1..], StopsFind);
      if rest.Some? {
        FirstIndexUnique(links, StopsFind, rest.value + 1);
      }
    }
  }

  /** Without null links the search is Array.prototype.find for a link whose
      `rel` is "approve". */
  lemma FindApproveWithoutNulls(links: seq<Json>)
    requires forall j :: 0 <= j < |links| ==> links[j] != JNull
    ensures FirstIndex(links, IsApprove).None? ==> FindApprove(links) == Ok(None)
    ensures FirstIndex(links, IsApprove).Some? ==>
      FindApprove(links) == Ok(Some(links[FirstIndex(links, IsApprove).value]))
  {
    FindApproveSpec(links);
    var stop := FirstIndex(links, StopsFind);
    var hit := FirstIndex(links, IsApprove);
    if hit.Some? {
      FirstIndexUnique(links, StopsFind, hit.value);
    }
  }

  // ---------------------------------------------------------------------------
  // The requests
  // ---------------------------------------------------------------------------

  /** The live API for the "live" environment and the sandbox otherwise. */
  function ApiBase(cfg: Config): string {
    if cfg.paypalEnv == "live" then "https://api-m.paypal.com" else "https://api-m.sandbox.paypal.com"
  }

  /** The client-credentials grant, with the client id and secret as basic
      credentials. */
  function TokenCall(cfg: Config): Outbound {
    Outbound(ApiBase(cfg) + "/v1/oauth2/token", Basic(cfg.paypalClientId, cfg.paypalClientSecret), ClientCredentials)
  }

  /** The order: captured at once, one purchase unit for the whole amount,
      and the return addresses. */
  function OrderJson(cfg: Config, b: Json, cur: string, total: string): Json {
    JObj(map[
      "intent" := JStr("CAPTURE"),
      "purchase_units" := JArr([JObj(map["amount" := JObj(map["currency_code" := JStr(cur), "value" := JStr(total)])])]),
      "application_context" := JObj(map[
        "brand_name" := JStr("ALTURA"),
        "user_action" := JStr("PAY_NOW"),
        "return_url" := JStr(ReturnUrl(cfg, Get(b, "success_path"), "/en/order/success/", "?paypal=1")),
        "cancel_url" := JStr(ReturnUrl(cfg, Get(b, "cancel_path"), "/en/order/failed/", "?canceled=1"))])])
  }

  function OrderCall(cfg: Config, accessToken: Value, order: Json): Outbound {
    Outbound(ApiBase(cfg) + "/v2/checkout/orders", Bearer(JsString(accessToken)), JsonBody(order))
  }

  /** The reply once the order is created: its id and the approval link's
      `href`, or null when it has none; a null order, links that are not an
      array and a null link before the match throw. */
  function ApproveReply(order: Json): Reply {
    match Prop(Some(order), "links")
    case Err(m) => ErrorReply(500, ErrorText(m))
    case Ok(links) =>
      var list := Or(links, Some(JArr([])));
      if !(list.Some? && list.value.JArr?) then ErrorReply(500, NotAFunction("find"))
      else
        match FindApprove(list.value.elems)
        case Err(m) => ErrorReply(500, ErrorText(m))
        case Ok(approve) =>
          var url := if approve.Some? then Get(approve.value, "href") else Some(JNull);
          Reply(200, JObj(ObjOf([("id", Get(order, "id")), ("approve_url", url)])))
  }

  /** Everything after the total: the token exchange, then the order. */
  function CreateOrder(cfg: Config, b: Json, cur: string, total: string, transport: Outbound -> Upstream): Handled {
    var tokenCall := TokenCall(cfg);
    match TokenResult(transport(tokenCall))
    case Err(m) => Handled(ErrorReply(500, ErrorText(m)), [tokenCall])
    case Ok(token) =>
      match Prop(Some(token), "access_token")
      case Err(m) => Handled(ErrorReply(500, ErrorText(m)), [tokenCall])
      case Ok(accessToken) =>
        var orderCall := OrderCall(cfg, accessToken, OrderJson(cfg, b, cur, total));
        match HttpsResult(transport(orderCall))
        case Err(m) => Handled(ErrorReply(500, ErrorText(m)), [tokenCall, orderCall])
        case Ok(order) => Handled(ApproveReply(order), [tokenCall, orderCall])
  }

  /** Any order reply is 200, or 500 when reading the links throws. */
  lemma ApproveReplyStatus(order: Json)
    ensures ApproveReply(order).status == 200 || ApproveReply(order).status == 500
  {
  }

  /** Once the total is known, the endpoint answers 200 or 500. */
  lemma CreateOrderStatus(cfg: Config, b: Json, cur: string, total: string, transport: Outbound -> Upstream)
    ensures var s := CreateOrder(cfg, b, cur, total, transport).reply.status;
      s == 200 || s == 500
  {
    var tokenCall := TokenCall(cfg);
    var token := TokenResult(transport(tokenCall));
    if token.Ok? {
      var accessToken := Prop(Some(token.value), "access_token");
      if accessToken.Ok? {
        var orderCall := OrderCall(cfg, accessToken.value, OrderJson(cfg, b, cur, total));
        var order := HttpsResult(transport(orderCall));
        if order.Ok? {
          ApproveReplyStatus(order.value);
        }
      }
    }
  }

  /** The endpoint, given the body `readBody` settled on and the upstream
      `transport`. */
  function PaypalHandler(cfg: Config, body: Result<Json>, transport: Outbound -> Upstream): Handled {
    match body
    case Err(m) => Handled(ErrorReply(500, ErrorText(m)), [])
    case Ok(raw) =>
      if cfg.paypalClientId == "" || cfg.paypalClientSecret == "" then
        Handled(ErrorReply(400, "PAYPAL credentials not configured"), [])
      else
        var b := Fields(raw);
        var items := Get(b, "items");
        if !HasItems(items) then Handled(ErrorReply(400, "No items"), [])
        else
          var currency := Or(Get(b, "currency"), Some(JStr("EUR")));
          if !(currency.Some? && currency.value.JStr?) then
            Handled(ErrorReply(500, NotAFunction("toUpperCase")), [])
          else
            match TotalCents(items.value.elems)
            case Err(m) => Handled(ErrorReply(500, ErrorText(m)), [])
            case Ok(total) => CreateOrder(cfg, b, ToUpper(currency.value.s), TotalText(total), transport)
  }

  // ---------------------------------------------------------------------------
  // Properties
  // ---------------------------------------------------------------------------

  /** The checks run in order: the body is read first, then missing client
      credentials answer 400 whatever the items, then missing, non-array or
      empty items answer 400 "No items"; none of these reaches PayPal. */
  lemma PaypalValidationOrder(cfg: Config, body: Result<Json>, transport: Outbound -> Upstream)
    ensures body.Err? ==> PaypalHandler(cfg, body, transport).reply.status == 500
    ensures body.Ok? && (cfg.paypalClientId == "" || cfg.paypalClientSecret == "") ==>
      PaypalHandler(cfg, body, transport) == Handled(ErrorReply(400, "PAYPAL credentials not configured"), [])
    ensures (body.Ok? && cfg.paypalClientId != "" && cfg.paypalClientSecret != ""
      && !HasItems(Get(body.value, "items"))) ==>
      PaypalHandler(cfg, body, transport) == Handled(ErrorReply(400, "No items"), [])
    ensures PaypalHandler(cfg, body, transport).calls != [] ==>
      body.Ok? && cfg.paypalClientId != "" && cfg.paypalClientSecret != "" && HasItems(Get(body.value, "items"))
  {
  }

  /** The token is always asked for first, from the API of the configured
      environment with the client's credentials; the order is created exactly
      when the token exchange settles on a body that is not null (whether or
      not it holds an `access_token`), and nothing else is called. */
  lemma PaypalCallSequence(cfg: Config, b: Json, cur: string, total: string, transport: Outbound -> Upstream)
    ensures var h := CreateOrder(cfg, b, cur, total, transport);
      1 <= |h.calls| <= 2 && h.calls[0] == TokenCall(cfg)
    ensures var h := CreateOrder(cfg, b, cur, total, transport);
      |h.calls| == 2 <==> (TokenResult(transport(TokenCall(cfg))).Ok?
        && Prop(Some(TokenResult(transport(TokenCall(cfg))).value), "access_token").Ok?)
    ensures var h := CreateOrder(cfg, b, cur, total, transport);
      |h.calls| == 2 ==> (h.calls[1].url == ApiBase(cfg) + "/v2/checkout/orders"
        && h.calls[1].body == JsonBody(OrderJson(cfg, b, cur, total)))
    ensures StartsWith(TokenCall(cfg).url, "https://api-m.paypal.com") <==> cfg.paypalEnv == "live"
    ensures CreateOrder(cfg, b, cur, total, transport).reply.status == 200 ==>
      |CreateOrder(cfg, b, cur, total, transport).calls| == 2
  {
    TokenUrlLive(cfg);
  }

  /** A 2xx token answer without `access_token` still creates the order,
      authorised as "Bearer undefined". */
  lemma OrderSentWithoutAccessToken(cfg: Config, b: Json, cur: string, total: string, transport: Outbound -> Upstream)
    requires TokenResult(transport(TokenCall(cfg))).Ok?
    requires TokenResult(transport(TokenCall(cfg))).value != JNull
    requires Get(TokenResult(transport(TokenCall(cfg))).value, "access_token").None?
    ensures var h := CreateOrder(cfg, b, cur, total, transport);
      |h.calls| == 2 && h.calls[1].auth == Bearer("undefined")
  {
  }

  lemma TokenUrlLive(cfg: Config)
    ensures StartsWith(TokenCall(cfg).url, "https://api-m.paypal.com") <==> cfg.paypalEnv == "live"
  {
    var live := "https://api-m.paypal.com";
    var u := TokenCall(cfg).url;
    if cfg.paypalEnv == "live" {
      assert u == live + "/v1/oauth2/token";
      assert u[..|live|] == live;
    } else {
      assert u[8] == 'a' && u[12] == 'm' && u[13] == '.' && u[14] == 's';
      assert live[14] == 'p';
    }
  }

  /** The amount sent is the sum of the items' prices times quantities,
      written with two decimals (see ParseFormatCents), in the client's
      currency upper-cased ("EUR" when the client sends none); a null item
      answers 500 before PayPal is called. */
  lemma PaypalAmount(cfg: Config, raw: Json, transport: Outbound -> Upstream)
    requires cfg.paypalClientId != "" && cfg.paypalClientSecret != ""
    requires HasItems(Get(raw, "items"))
    requires var c := Or(Get(raw, "currency"), Some(JStr("EUR"))); c.Some? && c.value.JStr?
    ensures var items := Get(raw, "items").value.elems;
      (exists j :: 0 <= j < |items| && items[j] == JNull) <==> PaypalHandler(cfg, Ok(raw), transport).calls == []
    ensures var items := Get(raw, "items").value.elems;
      var c := Or(Get(raw, "currency"), Some(JStr("EUR")));
      (forall j :: 0 <= j < |items| ==> items[j] != JNull && ItemCents(items[j]).Some?) ==>
        PaypalHandler(cfg, Ok(raw), transport)
          == CreateOrder(cfg, Fields(raw), ToUpper(c.value.s), FormatCents(Sum(items, Known(ItemCents))), transport)
    ensures !Truthy(Get(raw, "currency")) ==> ToUpper(Or(Get(raw, "currency"), Some(JStr("EUR"))).value.s) == "EUR"
  {
    var items := Get(raw, "items").value.elems;
    var c := Or(Get(raw, "currency"), Some(JStr("EUR")));
    TotalCentsSpec(items);
    assert ToUpper("EUR") == "EUR";
    var total := TotalCents(items);
    if total.Ok? {
      PaypalCallSequence(cfg, Fields(raw), ToUpper(c.value.s), TotalText(total.value), transport);
    }
  }

  /** A currency that is truthy but not a string makes `toUpperCase` throw:
      500, and PayPal is not called. */
  lemma PaypalCurrencyNotText(cfg: Config, raw: Json, transport: Outbound -> Upstream)
    requires cfg.paypalClientId != "" && cfg.paypalClientSecret != ""
    requires HasItems(Get(Fields(raw), "items"))
    requires Truthy(Get(Fields(raw), "currency")) && !Get(Fields(raw), "currency").value.JStr?
    ensures PaypalHandler(cfg, Ok(raw), transport).reply.status == 500
    ensures PaypalHandler(cfg, Ok(raw), transport).calls == []
  {
  }

  /** A created order answers 200 with its id and the `href` of its first
      link whose `rel` is "approve", or null when no link has it. */
  lemma ApproveReplySpec(order: Json)
    requires order.JObj? && "links" in order.fields && order.fields["links"].JArr?
    requires var links := order.fields["links"].elems; forall j :: 0 <= j < |links| ==> links[j] != JNull
    ensures var links := order.fields["links"].elems;
      var hit := FirstIndex(links, IsApprove);
      var r := ApproveReply(order);
      r.status == 200
      && (hit.None? ==> Get(r.body, "approve_url") == Some(JNull))
      && (hit.Some? ==> Get(r.body, "approve_url") == Get(links[hit.value], "href"))
      && Get(r.body, "id") == Get(order, "id")
  {
    var links := order.fields["links"].elems;
    FindApproveWithoutNulls(links);
    var approve := FindApprove(links).value;
    var url := if approve.Some? then Get(approve.value, "href") else Some(JNull);
    ApproveReplyFound(order, approve);
    ObjOfTwo("id", Get(order, "id"), "approve_url", url);
  }

  /** Once the search over an array of links settles, the reply is 200 with
      the id and the link found. */
  lemma ApproveReplyFound(order: Json, approve: Option<Json>)
    requires order.JObj? && "links" in order.fields && order.fields["links"].JArr?
    requires FindApprove(order.fields["links"].elems) == Ok(approve)
    ensures ApproveReply(order) == Reply(200, JObj(ObjOf([("id", Get(order, "id")),
      ("approve_url", if approve.Some? then Get(approve.value, "href") else Some(JNull))])))
  {
    assert Prop(Some(order), "links") == Ok(Some(order.fields["links"]));
  }
}
