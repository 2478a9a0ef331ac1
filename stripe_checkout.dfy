/** The Stripe checkout endpoint (`POST /api/checkout/stripe`,
    ALTURA_SERVER/server/server.js): read the body, check the secret key and
    the items, flatten the items into `line_items[i][...]` form fields and
    create a checkout session upstream. */
module StripeCheckout {
  import opened JsBuiltins
  import opened JsonValues
  import opened ServerHttp
  import opened ServerConfig

  /** One entry of `lineItems`: its name and the two parseInt results
      (None where parseInt gives NaN). */
  datatype LineItem = LineItem(name: string, unitAmount: Option<int>, quantity: Option<int>)

  function DefaultName(idx: nat): string {
    "ALTURA Item " + NatToString(idx + 1)
  }

  /** The `items.map` callback on the element at `idx`. */
  function ToLineItem(it: Json, idx: nat): (r: Result<LineItem>)
    ensures r.Err? <==> it == JNull
    ensures r.Ok? ==> r.value.unitAmount == ParseInt(Get(it, "unit_amount"))
    ensures r.Ok? && Truthy(Get(it, "name")) ==> r.value.name == JsString(Get(it, "name"))
    ensures r.Ok? && !Truthy(Get(it, "name")) ==> r.value.name == DefaultName(idx)
    ensures r.Ok? && Truthy(Get(it, "quantity")) ==> r.value.quantity == ParseInt(Get(it, "quantity"))
    ensures r.Ok? && !Truthy(Get(it, "quantity")) ==> r.value.quantity == Some(1)
  {
    match Prop(Some(it), "name")
    case Err(m) => Err(m)
    case Ok(name) =>
      ParseIntOfNumber(1);
      Ok(LineItem(
        JsString(Or(name, Some(JStr(DefaultName(idx))))),
        ParseInt(Get(it, "unit_amount")),
        ParseInt(Or(Get(it, "quantity"), Some(JNum(1))))))
  }

  /** `items.map(...)`: the first null element throws; otherwise one line
      item per element, in order. */
  function LineItems(items: seq<Json>): (r: Result<seq<LineItem>>)
    ensures r.Err? <==> JNull in items
    ensures r.Ok? ==> |r.value| == |items|
    ensures r.Ok? ==> forall k :: 0 <= k < |items| ==> ToLineItem(items[k], k) == Ok(r.value[k])
  {
    if JNull in items then Err("Cannot read properties of null (reading 'name')")
    else Ok(seq(|items|, k requires 0 <= k < |items| => ToLineItem(items[k], k).value))
  }

  // ---------------------------------------------------------------------------
  // The form
  // ---------------------------------------------------------------------------

  /** The fields the form object literal starts with, in insertion order;
      `customer_email` only when it is truthy. */
  function FormHeader(cfg: Config, b: Json): seq<(string, string)> {
    [("mode", "payment"),
     ("success_url", ReturnUrl(cfg, Get(b, "success_path"), "/en/order/success/", "?sid={CHECKOUT_SESSION_ID}")),
     ("cancel_url", ReturnUrl(cfg, Get(b, "cancel_path"), "/en/order/failed/", "?canceled=1"))]
    + (if Truthy(Get(b, "customer_email")) then [("customer_email", JsString(Get(b, "customer_email")))] else [])
  }

  /** The four per-item keys, after `line_items[i]`. */
  const FieldNames: seq<string> :=
    ["[quantity]", "[price_data][currency]", "[price_data][unit_amount]", "[price_data][product_data][name]"]

  function ItemKey(i: nat, field: string): string {
    "line_items[" + NatToString(i) + "]" + field
  }

  /** The values stored under the four keys of a line item. */
  function FieldValues(li: LineItem, cur: string): seq<string> {
    [NumText(li.quantity), cur, NumText(li.unitAmount), li.name]
  }

  function LineFields(i: nat, li: LineItem, cur: string): seq<(string, string)> {
    seq(4, m requires 0 <= m < 4 => (ItemKey(i, FieldNames[m]), FieldValues(li, cur)[m]))
  }

  /** The fields of all line items, item after item. */
  function Flatten(lines: seq<LineItem>, cur: string): seq<(string, string)> {
    if lines == [] then []
    else Flatten(lines[..|lines| - 1], cur) + LineFields(|lines| - 1, lines[|lines| - 1], cur)
  }

  /** The form that is sent: the header fields, then the item fields. */
  function StripeForm(cfg: Config, b: Json, lines: seq<LineItem>, cur: string): seq<(string, string)> {
    FormHeader(cfg, b) + Flatten(lines, cur)
  }

  /** `form[key] = value` on an object: an existing key keeps its place and
      takes the new value; a new key goes last. */
  function SetField(form: seq<(string, string)>, key: string, value: string): (r: seq<(string, string)>)
    ensures (forall k :: 0 <= k < |form| ==> form[k].0 != key) ==> r == form + [(key, value)]
    ensures (exists k :: 0 <= k < |form| && form[k].0 == key) ==> |r| == |form|
  {
    match FirstIndex(form, (f: (string, string)) => f.0 == key)
    case Some(k) => form[k := (key, value)]
    case None => form + [(key, value)]
  }

  /** Digits, a closing bracket and a rest: the bracket ends the digits, so
      both parts can be read back. */
  lemma DigitsThenBracket(d1: string, f: string, d2: string, g: string)
    requires AllDigits(d1) && AllDigits(d2)
    requires d1 + "]" + f == d2 + "]" + g
    ensures d1 == d2 && f == g
  {
    var s := d1 + "]" + f;
    assert s == d1 + ("]" + f) && s == d2 + ("]" + g);
    LeadingDigitsOfDigits(d1, "]" + f);
    LeadingDigitsOfDigits(d2, "]" + g);
    assert d1 == s[..|d1|] == d2;
    assert f == s[|d1| + 1..] == g;
  }

  /** Two item keys are equal only for the same item and the same field. */
  lemma ItemKeyInjective(i: nat, f: string, j: nat, g: string)
    requires ItemKey(i, f) == ItemKey(j, g)
    ensures i == j && f == g
  {
    var prefix := "line_items[";
    assert ItemKey(i, f) == prefix + (NatToString(i) + "]" + f);
    assert ItemKey(j, g) == prefix + (NatToString(j) + "]" + g);
    assert NatToString(i) + "]" + f == ItemKey(i, f)[|prefix|..];
    DigitsThenBracket(NatToString(i), f, NatToString(j), g);
    NatToStringInjective(i, j);
  }

  lemma FieldNamesDistinct(m: nat, n: nat)
    requires m < 4 && n < 4 && m != n
    ensures FieldNames[m] != FieldNames[n]
  {
    var q := FieldNames[0];
    var c := FieldNames[1];
    var u := FieldNames[2];
    var p := FieldNames[3];
    assert q[1] == 'q' && c[1] == 'p' && u[1] == 'p' && p[1] == 'p';
    assert c[13] == 'c' && u[13] == 'u' && p[13] == 'p';
  }

  /** The item fields: four per item, in item order, each block holding
      that item's four fields. */
  lemma {:induction false} FlattenShape(lines: seq<LineItem>, cur: string)
    ensures |Flatten(lines, cur)| == 4 * |lines|
    ensures forall j :: 0 <= j < |lines| ==> Flatten(lines, cur)[4 * j..4 * j + 4] == LineFields(j, lines[j], cur)
    decreases |lines|
  {
    if lines != [] {
      var init := lines[..|lines| - 1];
      FlattenShape(init, cur);
      var n := |init|;
      var a := Flatten(init, cur);
      forall j | 0 <= j < |lines|
        ensures Flatten(lines, cur)[4 * j..4 * j + 4] == LineFields(j, lines[j], cur)
      {
        if j < n {
          assert Flatten(lines, cur)[4 * j..4 * j + 4] == a[4 * j..4 * j + 4];
          assert lines[j] == init[j];
        }
      }
    }
  }

  /** The field at position `d` among the item fields: field `d % 4` of
      item `d / 4`. */
  lemma FlattenAt(lines: seq<LineItem>, cur: string, d: nat)
    requires d < |Flatten(lines, cur)|
    ensures d / 4 < |lines| && d % 4 < 4
    ensures Flatten(lines, cur)[d] == LineFields(d / 4, lines[d / 4], cur)[d % 4]
  {
    FlattenShape(lines, cur);
    var j, r := d / 4, d % 4;
    assert d == 4 * j + r && j < |lines|;
    assert Flatten(lines, cur)[d] == Flatten(lines, cur)[4 * j..4 * j + 4][r];
  }

  /** No key starts like an item key. */
  predicate NoItemKeys(header: seq<(string, string)>) {
    forall k :: 0 <= k < |header| ==> header[k].0 != [] && header[k].0[0] != 'l'
  }

  lemma HeaderKeys(cfg: Config, b: Json)
    ensures NoItemKeys(FormHeader(cfg, b))
  {
  }

  lemma LineFieldKey(i: nat, li: LineItem, cur: string, r: nat)
    requires r < 4
    ensures LineFields(i, li, cur)[r].0 == ItemKey(i, FieldNames[r])
  {
  }

  /** An earlier item's field has another index. */
  lemma DoneKeyDiffers(lines: seq<LineItem>, cur: string, i: nat, m: nat, d: nat)
    requires i < |lines| && m < 4 && d < |Flatten(lines[..i], cur)|
    ensures Flatten(lines[..i], cur)[d].0 != ItemKey(i, FieldNames[m])
  {
    var done := Flatten(lines[..i], cur);
    FlattenAt(lines[..i], cur, d);
    var j, r := d / 4, d % 4;
    assert lines[..i][j] == lines[j];
    LineFieldKey(j, lines[j], cur, r);
    if done[d].0 == ItemKey(i, FieldNames[m]) {
      ItemKeyInjective(j, FieldNames[r], i, FieldNames[m]);
    }
  }

  /** This item's earlier fields have other names. */
  lemma PartKeyDiffers(i: nat, li: LineItem, cur: string, m: nat, e: nat)
    requires e < m < 4
    ensures LineFields(i, li, cur)[e].0 != ItemKey(i, FieldNames[m])
  {
    if LineFields(i, li, cur)[e].0 == ItemKey(i, FieldNames[m]) {
      ItemKeyInjective(i, FieldNames[e], i, FieldNames[m]);
      FieldNamesDistinct(e, m);
    }
  }

  /** After any header without item keys, the key a line item's field is
      about to be stored under is not in the form yet. */
  lemma KeyAbsentAfter(header: seq<(string, string)>, lines: seq<LineItem>, cur: string, i: nat, m: nat)
    requires NoItemKeys(header) && i < |lines| && m < 4
    ensures var form := header + Flatten(lines[..i], cur) + LineFields(i, lines[i], cur)[..m];
      forall k :: 0 <= k < |form| ==> form[k].0 != ItemKey(i, FieldNames[m])
  {
    var done := Flatten(lines[..i], cur);
    var part := LineFields(i, lines[i], cur)[..m];
    var form := header + done + part;
    var key := ItemKey(i, FieldNames[m]);
    assert key[0] == 'l';
    forall k | 0 <= k < |form| ensures form[k].0 != key {
      if k < |header| {
        assert form[k] == header[k];
      } else if k < |header| + |done| {
        assert form[k] == done[k - |header|];
        DoneKeyDiffers(lines, cur, i, m, k - |header|);
      } else {
        var e := k - |header| - |done|;
        assert form[k] == part[e] == LineFields(i, lines[i], cur)[e];
        PartKeyDiffers(i, lines[i], cur, m, e);
      }
    }
  }

  /** The key a line item's field is about to be stored under is not in the
      form yet: the header keys start differently, the earlier items have
      other indices, and this item's earlier fields have other names. */
  lemma KeyAbsent(cfg: Config, b: Json, lines: seq<LineItem>, cur: string, i: nat, m: nat)
    requires i < |lines| && m < 4
    ensures var form := StripeForm(cfg, b, lines[..i], cur) + LineFields(i, lines[i], cur)[..m];
      forall k :: 0 <= k < |form| ==> form[k].0 != ItemKey(i, FieldNames[m])
  {
    HeaderKeys(cfg, b);
    KeyAbsentAfter(FormHeader(cfg, b), lines, cur, i, m);
    assert StripeForm(cfg, b, lines[..i], cur) == FormHeader(cfg, b) + Flatten(lines[..i], cur);
  }

  /** Storing a line item's next field appends it to the form. */
  lemma SetFieldStep(cfg: Config, b: Json, lines: seq<LineItem>, cur: string, i: nat, m: nat)
    requires i < |lines| && m < 4
    ensures var fields := LineFields(i, lines[i], cur);
      SetField(StripeForm(cfg, b, lines[..i], cur) + fields[..m], ItemKey(i, FieldNames[m]), FieldValues(lines[i], cur)[m])
      == StripeForm(cfg, b, lines[..i], cur) + fields[..m + 1]
  {
    var fields := LineFields(i, lines[i], cur);
    KeyAbsent(cfg, b, lines, cur, i, m);
    assert fields[..m + 1] == fields[..m] + [fields[m]];
  }

  /** After its four fields, a line item is part of the form. */
  lemma ItemDone(cfg: Config, b: Json, lines: seq<LineItem>, cur: string, i: nat)
    requires i < |lines|
    ensures StripeForm(cfg, b, lines[..i], cur) + LineFields(i, lines[i], cur)[..4]
      == StripeForm(cfg, b, lines[..i + 1], cur)
  {
    assert lines[..i + 1][..i] == lines[..i];
    assert LineFields(i, lines[i], cur)[..4] == LineFields(i, lines[i], cur);
  }

  /** The `forEach` callback for item `i`: its four fields, each assigned
      with `form[key] = value`. */
  method StoreLineItem(ghost cfg: Config, ghost b: Json, ghost lines: seq<LineItem>, form0: seq<(string, string)>,
                       i: nat, li: LineItem, cur: string) returns (form: seq<(string, string)>)
    requires i < |lines| && li == lines[i]
    requires form0 == StripeForm(cfg, b, lines[..i], cur)
    ensures form == StripeForm(cfg, b, lines[..i + 1], cur)
  {
    ghost var fields := LineFields(i, li, cur);
    form := form0;
    assert form == form0 + fields[..0];
    SetFieldStep(cfg, b, lines, cur, i, 0);
    form := SetField(form, ItemKey(i, "[quantity]"), NumText(li.quantity));
    assert form == form0 + fields[..1];
    SetFieldStep(cfg, b, lines, cur, i, 1);
    form := SetField(form, ItemKey(i, "[price_data][currency]"), cur);
    assert form == form0 + fields[..2];
    SetFieldStep(cfg, b, lines, cur, i, 2);
    form := SetField(form, ItemKey(i, "[price_data][unit_amount]"), NumText(li.unitAmount));
    assert form == form0 + fields[..3];
    SetFieldStep(cfg, b, lines, cur, i, 3);
    form := SetField(form, ItemKey(i, "[price_data][product_data][name]"), li.name);
    assert form == form0 + fields[..4];
    ItemDone(cfg, b, lines, cur, i);
  }

  /** The form after the `forEach` over the line items: the header object,
      then the fields of each item in order. */
  method BuildStripeForm(cfg: Config, b: Json, lines: seq<LineItem>, cur: string) returns (form: seq<(string, string)>)
    ensures form == StripeForm(cfg, b, lines, cur)
  {
    form := FormHeader(cfg, b);
    var i := 0;
    assert lines[..0] == [];
    while i < |lines|
      invariant 0 <= i <= |lines|
      invariant form == StripeForm(cfg, b, lines[..i], cur)
    {
      form := StoreLineItem(cfg, b, lines, form, i, lines[i], cur);
      i := i + 1;
    }
    assert lines[..i] == lines;
  }

  // ---------------------------------------------------------------------------
  // The handler
  // ---------------------------------------------------------------------------

  const SessionsUrl := "https://api.stripe.com/v1/checkout/sessions"

  /** The request that creates the checkout session. */
  function SessionCall(cfg: Config, form: seq<(string, string)>): Outbound {
    Outbound(SessionsUrl, Bearer(cfg.stripeSecretKey), Form(form))
  }

  /** The reply once the session request settled: `{ id, url }` from the
      session, or 500 with the error. */
  function SessionReply(result: Result<Json>): Reply {
    match result
    case Err(m) => ErrorReply(500, ErrorText(m))
    case Ok(session) =>
      match Prop(Some(session), "id")
      case Err(m) => ErrorReply(500, ErrorText(m))
      case Ok(id) => Reply(200, JObj(ObjOf([("id", id), ("url", Get(session, "url"))])))
  }

  /** The endpoint, given the body `readBody` settled on (an Err when it
      rejected, which the server's outer handler answers with 500) and the
      upstream `transport`. */
  function StripeHandler(cfg: Config, body: Result<Json>, transport: Outbound -> Upstream): Handled {
    match body
    case Err(m) => Handled(ErrorReply(500, ErrorText(m)), [])
    case Ok(raw) =>
      if cfg.stripeSecretKey == "" then Handled(ErrorReply(400, "STRIPE_SECRET_KEY not configured"), [])
      else
        var b := Fields(raw);
        var items := Get(b, "items");
        if !HasItems(items) then Handled(ErrorReply(400, "No items"), [])
        else
          var currency := Or(Get(b, "currency"), Some(JStr("EUR")));
          if !(currency.Some? && currency.value.JStr?) then
            Handled(ErrorReply(500, NotAFunction("toLowerCase")), [])
          else
            var cur := ToLower(currency.value.s);
            match LineItems(items.value.elems)
            case Err(m) => Handled(ErrorReply(500, ErrorText(m)), [])
            case Ok(lines) =>
              var call := SessionCall(cfg, StripeForm(cfg, b, lines, cur));
              Handled(SessionReply(HttpsResult(transport(call))), [call])
  }

  /** The endpoint as the server runs it, with the form built by the loop. */
  method HandleStripe(cfg: Config, body: Result<Json>, transport: Outbound -> Upstream) returns (h: Handled)
    ensures h == StripeHandler(cfg, body, transport)
  {
    if body.Err? {
      return Handled(ErrorReply(500, ErrorText(body.message)), []);
    }
    if cfg.stripeSecretKey == "" {
      return Handled(ErrorReply(400, "STRIPE_SECRET_KEY not configured"), []);
    }
    var b := Fields(body.value);
    var items := Get(b, "items");
    if !HasItems(items) {
      return Handled(ErrorReply(400, "No items"), []);
    }
    var currency := Or(Get(b, "currency"), Some(JStr("EUR")));
    if !(currency.Some? && currency.value.JStr?) {
      return Handled(ErrorReply(500, NotAFunction("toLowerCase")), []);
    }
    var cur := ToLower(currency.value.s);
    var lineItems := LineItems(items.value.elems);
    if lineItems.Err? {
      return Handled(ErrorReply(500, ErrorText(lineItems.message)), []);
    }
    var form := BuildStripeForm(cfg, b, lineItems.value, cur);
    var call := SessionCall(cfg, form);
    h := Handled(SessionReply(HttpsResult(transport(call))), [call]);
  }

  // ---------------------------------------------------------------------------
  // Properties
  // ---------------------------------------------------------------------------

  /** The checks run in order: the body is read first, then a missing secret
      key answers 400 whatever the items, then missing, non-array or empty
      items answer 400 "No items"; none of these reaches Stripe. */
  lemma StripeValidationOrder(cfg: Config, body: Result<Json>, transport: Outbound -> Upstream)
    ensures body.Err? ==> StripeHandler(cfg, body, transport).reply.status == 500
    ensures body.Ok? && cfg.stripeSecretKey == "" ==>
      StripeHandler(cfg, body, transport) == Handled(ErrorReply(400, "STRIPE_SECRET_KEY not configured"), [])
    ensures body.Ok? && cfg.stripeSecretKey != "" && !HasItems(Get(body.value, "items")) ==>
      StripeHandler(cfg, body, transport) == Handled(ErrorReply(400, "No items"), [])
    ensures StripeHandler(cfg, body, transport).calls != [] ==>
      body.Ok? && cfg.stripeSecretKey != "" && HasItems(Get(body.value, "items"))
  {
  }

  /** When Stripe is called, it is called once, with the secret key, and
      with the form of the request's items: four fields per item after the
      header, every key distinct. */
  lemma StripeCallsOnce(cfg: Config, body: Result<Json>, transport: Outbound -> Upstream)
    requires StripeHandler(cfg, body, transport).calls != []
    ensures var h := StripeHandler(cfg, body, transport);
      |h.calls| == 1 && h.calls[0].url == SessionsUrl && h.calls[0].auth == Bearer(cfg.stripeSecretKey)
      && h.calls[0].body.Form?
      && var items := Get(Fields(body.value), "items").value.elems;
         |h.calls[0].body.fields| == |FormHeader(cfg, Fields(body.value))| + 4 * |items|
    ensures var h := StripeHandler(cfg, body, transport);
      h.reply.status == 200 || h.reply.status == 500
  {
    var b := Fields(body.value);
    var items := Get(b, "items").value.elems;
    var cur := ToLower(Or(Get(b, "currency"), Some(JStr("EUR"))).value.s);
    var lines := LineItems(items).value;
    FlattenShape(lines, cur);
  }

  /** The form Stripe receives is the header and the fields of the
      request's line items, in the lower-cased currency. */
  lemma StripeCallForm(cfg: Config, body: Result<Json>, transport: Outbound -> Upstream)
    requires StripeHandler(cfg, body, transport).calls != []
    ensures var b := Fields(body.value);
      var c := Or(Get(b, "currency"), Some(JStr("EUR")));
      var call := StripeHandler(cfg, body, transport).calls[0];
      c.Some? && c.value.JStr? && LineItems(Get(b, "items").value.elems).Ok?
      && call.body.Form?
      && call.body.fields == StripeForm(cfg, b, LineItems(Get(b, "items").value.elems).value, ToLower(c.value.s))
  {
  }

  /** The second field of item `i` is its currency. */
  lemma FormCurrencyAt(cfg: Config, b: Json, lines: seq<LineItem>, cur: string, i: nat)
    requires i < |lines|
    ensures var at := |FormHeader(cfg, b)| + 4 * i + 1;
      at < |StripeForm(cfg, b, lines, cur)|
      && StripeForm(cfg, b, lines, cur)[at] == (ItemKey(i, "[price_data][currency]"), cur)
  {
    FlattenShape(lines, cur);
    FlattenAt(lines, cur, 4 * i + 1);
    assert (4 * i + 1) / 4 == i && (4 * i + 1) % 4 == 1;
  }

  /** Every line item is sent in the client's currency lower-cased, and in
      "eur" when the client sends none. */
  lemma StripeCurrencySent(cfg: Config, body: Result<Json>, transport: Outbound -> Upstream, i: nat)
    requires StripeHandler(cfg, body, transport).calls != []
    requires i < |Get(Fields(body.value), "items").value.elems|
    ensures var b := Fields(body.value);
      var form := StripeHandler(cfg, body, transport).calls[0].body.fields;
      var c := Or(Get(b, "currency"), Some(JStr("EUR")));
      var at := |FormHeader(cfg, b)| + 4 * i + 1;
      c.Some? && c.value.JStr? && at < |form|
      && form[at] == (ItemKey(i, "[price_data][currency]"), ToLower(c.value.s))
      && (!Truthy(Get(b, "currency")) ==> form[at].1 == "eur")
  {
    var b := Fields(body.value);
    var c := Or(Get(b, "currency"), Some(JStr("EUR")));
    StripeCallForm(cfg, body, transport);
    FormCurrencyAt(cfg, b, LineItems(Get(b, "items").value.elems).value, ToLower(c.value.s), i);
    if !Truthy(Get(b, "currency")) {
      LowerEur();
    }
  }

  /** A currency that is truthy but not a string makes `toLowerCase` throw:
      500, and Stripe is not called. */
  lemma StripeCurrencyNotText(cfg: Config, raw: Json, transport: Outbound -> Upstream)
    requires cfg.stripeSecretKey != "" && HasItems(Get(Fields(raw), "items"))
    requires Truthy(Get(Fields(raw), "currency")) && !Get(Fields(raw), "currency").value.JStr?
    ensures StripeHandler(cfg, Ok(raw), transport).reply.status == 500
    ensures StripeHandler(cfg, Ok(raw), transport).calls == []
  {
  }

  /** Every key of the form is distinct, so each `form[key] = value` in the
      loop adds a field and none overwrites another. */
  lemma FormKeysDistinct(cfg: Config, b: Json, lines: seq<LineItem>, cur: string, p: nat, q: nat)
    requires p < q < |StripeForm(cfg, b, lines, cur)|
    ensures StripeForm(cfg, b, lines, cur)[p].0 != StripeForm(cfg, b, lines, cur)[q].0
  {
    var header := FormHeader(cfg, b);
    if q < |header| {
      HeaderKeysDistinct(cfg, b, p, q);
    } else {
      HeaderKeys(cfg, b);
      ItemKeysDistinct(header, lines, cur, p, q);
    }
  }

  /** Past a header without item keys, a field's key differs from every
      key before it. */
  lemma ItemKeysDistinct(header: seq<(string, string)>, lines: seq<LineItem>, cur: string, p: nat, q: nat)
    requires NoItemKeys(header)
    requires p < q < |header + Flatten(lines, cur)| && |header| <= q
    ensures (header + Flatten(lines, cur))[p].0 != (header + Flatten(lines, cur))[q].0
  {
    var all := Flatten(lines, cur);
    var d := q - |header|;
    FlattenAt(lines, cur, d);
    var j, r := d / 4, d % 4;
    KeyAbsentAfter(header, lines, cur, j, r);
    PrefixOfFlatten(lines, cur, j, r);
    var part := Flatten(lines[..j], cur) + LineFields(j, lines[j], cur)[..r];
    LineFieldKey(j, lines[j], cur, r);
    assert (header + all)[p] == (header + part)[p] by {
      if p >= |header| {
        assert (header + all)[p] == all[p - |header|] == part[p - |header|];
      }
    }
    Associative(header, Flatten(lines[..j], cur), LineFields(j, lines[j], cur)[..r]);
  }

  lemma Associative<T>(x: seq<T>, y: seq<T>, z: seq<T>)
    ensures x + (y + z) == (x + y) + z
  {
  }

  lemma HeaderKeyNames(cfg: Config, b: Json)
    ensures var h := FormHeader(cfg, b);
      (|h| == 3 || |h| == 4) && h[0].0 == "mode" && h[1].0 == "success_url" && h[2].0 == "cancel_url"
      && (|h| == 4 ==> h[3].0 == "customer_email")
  {
  }

  lemma HeaderKeysDistinct(cfg: Config, b: Json, p: nat, q: nat)
    requires p < q < |FormHeader(cfg, b)|
    ensures FormHeader(cfg, b)[p].0 != FormHeader(cfg, b)[q].0
  {
    HeaderKeyNames(cfg, b);
    HeaderNamesDistinct(FormHeader(cfg, b), p, q);
  }

  lemma HeaderNamesDistinct(h: seq<(string, string)>, p: nat, q: nat)
    requires (|h| == 3 || |h| == 4) && h[0].0 == "mode" && h[1].0 == "success_url" && h[2].0 == "cancel_url"
    requires |h| == 4 ==> h[3].0 == "customer_email"
    requires p < q < |h|
    ensures h[p].0 != h[q].0
  {
    assert "mode"[0] == 'm' && "success_url"[0] == 's' && "cancel_url"[0] == 'c' && "customer_email"[0] == 'c';
    assert "cancel_url"[1] == 'a' && "customer_email"[1] == 'u';
  }

  /** The fields of the first `j` items and item `j`'s first `r` fields
      come first among the fields of all items. */
  lemma PrefixOfFlatten(lines: seq<LineItem>, cur: string, j: nat, r: nat)
    requires j < |lines| && r < 4
    ensures var before := Flatten(lines[..j], cur) + LineFields(j, lines[j], cur)[..r];
      |before| == 4 * j + r <= |Flatten(lines, cur)| && before == Flatten(lines, cur)[..|before|]
  {
    FlattenShape(lines, cur);
    FlattenShape(lines[..j], cur);
    var all := Flatten(lines, cur);
    var done := Flatten(lines[..j], cur);
    FlattenPrefix(lines, cur, j);
    assert done == all[..4 * j];
    assert LineFields(j, lines[j], cur)[..r] == all[4 * j..4 * j + r];
    assert all[..4 * j + r] == all[..4 * j] + all[4 * j..4 * j + r];
  }

  lemma {:induction false} FlattenPrefix(lines: seq<LineItem>, cur: string, j: nat)
    requires j <= |lines|
    ensures 4 * j <= |Flatten(lines, cur)| && Flatten(lines[..j], cur) == Flatten(lines, cur)[..4 * j]
    decreases |lines|
  {
    FlattenShape(lines, cur);
    if j < |lines| {
      var init := lines[..|lines| - 1];
      FlattenPrefix(init, cur, j);
      assert init[..j] == lines[..j];
      FlattenShape(init, cur);
      assert Flatten(lines, cur)[..4 * j] == Flatten(init, cur)[..4 * j];
    } else {
      assert lines[..j] == lines;
    }
  }

  /** The currency defaults to "eur" and is sent lower-cased; a quantity
      that is missing or falsy is sent as 1, and an item without a name is
      named after its position, counting from 1. */
  lemma StripeDefaults(it: Json, idx: nat)
    requires it != JNull && !Truthy(Get(it, "quantity")) && !Truthy(Get(it, "name"))
    ensures ToLineItem(it, idx).Ok?
    ensures FieldValues(ToLineItem(it, idx).value, "eur")[0] == "1"
    ensures FieldValues(ToLineItem(it, idx).value, "eur")[3] == DefaultName(idx)
    ensures ToLower("EUR") == "eur"
  {
    LowerEur();
    OneText();
  }

  lemma LowerEur()
    ensures ToLower("EUR") == "eur"
  {
    assert ToLower("EUR") == ['e', 'u', 'r'];
  }

  lemma OneText()
    ensures NumText(Some(1)) == "1"
  {
    assert NatToString(1) == [DigitChar(1)];
  }

  /** The return addresses: the base URL, the client's path or the English
      default, then the query Stripe expects; the customer's email is sent
      only when it is truthy. */
  lemma StripeReturnUrls(cfg: Config, b: Json)
    ensures var h := FormHeader(cfg, b);
      h[1].0 == "success_url" && StartsWith(h[1].1, cfg.baseUrl) && EndsWith(h[1].1, "?sid={CHECKOUT_SESSION_ID}")
      && h[2].0 == "cancel_url" && StartsWith(h[2].1, cfg.baseUrl) && EndsWith(h[2].1, "?canceled=1")
    ensures !Truthy(Get(b, "success_path")) ==>
      FormHeader(cfg, b)[1].1 == cfg.baseUrl + "/en/order/success/" + "?sid={CHECKOUT_SESSION_ID}"
    ensures (|FormHeader(cfg, b)| == 4) <==> Truthy(Get(b, "customer_email"))
    ensures Truthy(Get(b, "customer_email")) ==>
      FormHeader(cfg, b)[3] == ("customer_email", JsString(Get(b, "customer_email")))
  {
  }
}
