/** What the server's request handlers share: the configuration read from the
    environment, the description of an outbound HTTPS request, and the
    readings of a request body that every checkout handler applies in the
    same way (ALTURA_SERVER/server/server.js). */
module ServerConfig {
  import opened JsBuiltins
  import opened JsonValues
  import opened ServerHttp

  /** The settings the server reads from its environment at start-up. */
  datatype Config = Config(
    baseUrl: string,
    stripeSecretKey: string,
    paypalEnv: string,
    paypalClientId: string,
    paypalClientSecret: string,
    mjPublic: string,
    mjPrivate: string,
    mjSenderEmail: string,
    mjSenderName: string,
    waToken: string,
    waPhoneNumberId: string)

  /** `process.env[name] || fallback`. */
  function EnvOr(env: map<string, string>, name: string, fallback: string): string {
    if name in env && env[name] != "" then env[name] else fallback
  }

  /** String(parseInt(PORT || "8080", 10)), which is "NaN" for a port
      without leading digits. */
  function PortText(env: map<string, string>): string {
    match ParseIntText(EnvOr(env, "PORT", "8080"))
    case Some(n) => IntToString(n)
    case None => "NaN"
  }

  /** The configuration: every setting is its variable when that is set and
      not empty, and its default otherwise; the PayPal environment is
      lower-cased; the base URL defaults to the local port. */
  function LoadConfig(env: map<string, string>): (c: Config)
    ensures c.baseUrl == EnvOr(env, "BASE_URL", "http://localhost:" + PortText(env))
    ensures c.paypalEnv == ToLower(EnvOr(env, "PAYPAL_ENV", "sandbox"))
    ensures c.stripeSecretKey == "" <==> !("STRIPE_SECRET_KEY" in env && env["STRIPE_SECRET_KEY"] != "")
    ensures c.mjSenderEmail != "" && c.mjSenderName != ""
  {
    Config(
      EnvOr(env, "BASE_URL", "http://localhost:" + PortText(env)),
      EnvOr(env, "STRIPE_SECRET_KEY", ""),
      ToLower(EnvOr(env, "PAYPAL_ENV", "sandbox")),
      EnvOr(env, "PAYPAL_CLIENT_ID", ""),
      EnvOr(env, "PAYPAL_CLIENT_SECRET", ""),
      EnvOr(env, "MJ_APIKEY_PUBLIC", ""),
      EnvOr(env, "MJ_APIKEY_PRIVATE", ""),
      EnvOr(env, "MJ_SENDER_EMAIL", "no-reply@altura.com"),
      EnvOr(env, "MJ_SENDER_NAME", "ALTURA"),
      EnvOr(env, "WA_TOKEN", ""),
      EnvOr(env, "WA_PHONE_NUMBER_ID", ""))
  }

  /** The Authorization header of an outbound request: a bearer token, or
      basic credentials (their base64 encoding is not modelled). */
  datatype Auth = Bearer(token: string) | Basic(user: string, secret: string)

  /** The body of an outbound request: URL-encoded form fields in insertion
      order, a JSON document, or the OAuth client-credentials grant. */
  datatype OutBody = Form(fields: seq<(string, string)>) | JsonBody(json: Json) | ClientCredentials

  /** One outbound HTTPS POST. */
  datatype Outbound = Outbound(url: string, auth: Auth, body: OutBody)

  /** What a handler answers, and the outbound requests it made, in order. */
  datatype Handled = Handled(reply: Reply, calls: seq<Outbound>)

  /** `body || {}`: a falsy body reads as an empty object. Destructuring a
      property out of it reads the property with Get. */
  function Fields(body: Json): (b: Json)
    ensures Truthy(Some(body)) ==> b == body
    ensures forall key :: Get(b, key) == Get(body, key)
  {
    if Truthy(Some(body)) then body else JObj(map[])
  }

  /** The items check: present, an array and not empty. */
  predicate HasItems(items: Value) {
    items.Some? && items.value.JArr? && |items.value.elems| > 0
  }

  /** A return address: the base URL, the client's path or the default, and
      the query. */
  function ReturnUrl(cfg: Config, path: Value, fallback: string, query: string): (u: string)
    ensures StartsWith(u, cfg.baseUrl) && EndsWith(u, query)
    ensures !Truthy(path) ==> u == cfg.baseUrl + fallback + query
  {
    var u := cfg.baseUrl + JsString(Or(path, Some(JStr(fallback)))) + query;
    assert u[..|cfg.baseUrl|] == cfg.baseUrl;
    assert u[|u| - |query|..] == query;
    u
  }

  /** String(n) for a parseInt result; NaN reads "NaN". */
  function NumText(n: Option<int>): string {
    match n
    case Some(v) => IntToString(v)
    case None => "NaN"
  }

  /** The TypeError thrown by calling a method the value does not have
      (`(currency || 'EUR').toLowerCase()` on a number, `.find` on an object). */
  function NotAFunction(name: string): string {
    name + " is not a function"
  }
}
