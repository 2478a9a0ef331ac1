/** The request handler of ALTURA_SERVER/server/server.js: every request is
    routed to an API endpoint, the API's 404 fallback or the static files,
    and every API endpoint answers JSON. */
module ServerDispatch {
  import opened JsBuiltins
  import opened JsonValues
  import opened ServerHttp
  import opened ServerConfig
  import StripeCheckout
  import PaypalCheckout
  import OrderConfirm
  import WhatsappSend

  /** A JSON reply from `handleApi` (with the outbound requests it made), or
      what `serveStatic` answers. */
  datatype Response = Api(handled: Handled) | Site(file: StaticReply)

  /** Everything the outside world contributes to one request: the body
      `readBody` settles on, the parsed catalogue file (an Err when reading
      or parsing it throws), the clock's ISO time, the random bytes of a new
      order id, the `fs.stat` answers and the upstream HTTPS services. */
  datatype World = World(
    body: Result<Json>,
    products: Result<Json>,
    now: string,
    random: seq<OrderConfirm.byte>,
    isFile: string -> bool,
    transport: Outbound -> Upstream)

  /** `{ ok: true, name: 'ALTURA', time }`. */
  function HealthReply(now: string): Reply {
    Reply(200, JObj(map["ok" := JBool(true), "name" := JStr("ALTURA"), "time" := JStr(now)]))
  }

  /** The catalogue file as it is, or the error reading it threw. */
  function ProductsReply(products: Result<Json>): Reply {
    match products
    case Ok(data) => Reply(200, data)
    case Err(m) => ErrorReply(500, ErrorText(m))
  }

  /** The answer to one request; the order log's record, if any, is in
      `OrderConfirm.Confirm(...).logged`. */
  function Respond(cfg: Config, siteDir: string, verb: string, rawUrl: string, pathname: string, w: World): Response {
    match RouteOf(verb, rawUrl, pathname)
    case Health => Api(Handled(HealthReply(w.now), []))
    case Products => Api(Handled(ProductsReply(w.products), []))
    case StripeCheckout => Api(StripeCheckout.StripeHandler(cfg, w.body, w.transport))
    case PaypalCheckout => Api(PaypalCheckout.PaypalHandler(cfg, w.body, w.transport))
    case OrderConfirm => Api(OrderConfirm.Confirm(cfg, w.body, w.random, w.now).handled)
    case WhatsappSend => Api(WhatsappSend.WhatsappHandler(cfg, w.body, w.transport))
    case ApiNotFound => Api(Handled(NotFoundReply(), []))
    case Static => Site(ServeStatic(siteDir, pathname, w.isFile))
  }

  /** The statuses the API answers with. */
  predicate ApiStatus(status: int) {
    status == 200 || status == 400 || status == 404 || status == 500
  }

  /** A raw URL under "/api/" is always answered by the API, with one of
      200, 400, 404 or 500, and 404 only for an unknown method and path;
      every other URL is a static file. Only the two checkout endpoints, the
      confirmation and WhatsApp reach out to other services. */
  lemma RespondSpec(cfg: Config, siteDir: string, verb: string, rawUrl: string, pathname: string, w: World)
    ensures var r := Respond(cfg, siteDir, verb, rawUrl, pathname, w);
      r.Api? <==> StartsWith(rawUrl, "/api/")
    ensures var r := Respond(cfg, siteDir, verb, rawUrl, pathname, w);
      r.Api? ==> (ApiStatus(r.handled.reply.status)
        && (r.handled.reply.status == 404 <==> (verb, pathname) !in ApiTable))
    ensures var r := Respond(cfg, siteDir, verb, rawUrl, pathname, w);
      r.Api? && r.handled.calls != [] ==> verb == "POST"
  {
    var route := RouteOf(verb, rawUrl, pathname);
    match route {
      case StripeCheckout =>
        StripeStatuses(cfg, w.body, w.transport);
      case PaypalCheckout =>
        PaypalStatuses(cfg, w.body, w.transport);
      case WhatsappSend =>
        WhatsappStatuses(cfg, w.body, w.transport);
      case _ =>
    }
  }

  lemma StripeStatuses(cfg: Config, body: Result<Json>, transport: Outbound -> Upstream)
    ensures var h := StripeCheckout.StripeHandler(cfg, body, transport);
      (h.reply.status == 200 || h.reply.status == 400 || h.reply.status == 500)
      && (h.calls != [] ==> body.Ok?)
  {
    var h := StripeCheckout.StripeHandler(cfg, body, transport);
    if h.calls != [] {
      StripeCheckout.StripeCallsOnce(cfg, body, transport);
    }
  }

  lemma WhatsappStatuses(cfg: Config, body: Result<Json>, transport: Outbound -> Upstream)
    ensures var s := WhatsappSend.WhatsappHandler(cfg, body, transport).reply.status;
      s == 200 || s == 400 || s == 500
  {
  }

  lemma PaypalStatuses(cfg: Config, body: Result<Json>, transport: Outbound -> Upstream)
    ensures var h := PaypalCheckout.PaypalHandler(cfg, body, transport);
      (h.reply.status == 200 || h.reply.status == 400 || h.reply.status == 500)
      && (h.calls != [] ==> body.Ok?)
  {
    if body.Ok? && cfg.paypalClientId != "" && cfg.paypalClientSecret != "" {
      var b := Fields(body.value);
      var items := Get(b, "items");
      var currency := Or(Get(b, "currency"), Some(JStr("EUR")));
      if HasItems(items) && currency.Some? && currency.value.JStr? {
        var total := PaypalCheckout.TotalCents(items.value.elems);
        if total.Ok? {
          PaypalCheckout.CreateOrderStatus(cfg, b, ToUpper(currency.value.s), PaypalCheckout.TotalText(total.value), transport);
        }
      }
    }
  }
}
