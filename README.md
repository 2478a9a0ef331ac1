# ALTURA storefront, checkout server and page generator — a Dafny model

ALTURA is a small clothing and shoe shop made of three parts:

- two browser scripts that keep a cart in local storage and post a checkout request:
  - the static storefront, `ALTURA_SITE/site/assets/app.js`;
  - the older funnel client served by the Node server, `ALTURA_SERVER/site/assets/app.js`;
- a dependency-free Node server, `ALTURA_SERVER/server/server.js`. It serves the static site, creates Stripe checkout sessions and PayPal orders, logs order confirmations (with an optional Mailjet mail) and relays WhatsApp messages;
- a generator, `ALTURA_DOCS/docs/generate_pages.js`, that writes one static HTML product page per language and catalogue product.

The model takes each part in its own form:

- **Carts.** Each client's cart is a class whose `items` field the add and remove methods update in place. The folds, the price lookup, the language rules and the checkout payload are functions, with lemmas about them. The code both scripts share is modelled once, in modules `CartLines` and `Locale`.
- **Server.** Modelled as functions from a configuration, a parsed request body and an oracle `transport` to a reply plus the list of outbound calls made:
  - `transport` stands for Stripe, PayPal, Mailjet and the Meta Cloud API.
  - The chunked body reader is a method with a loop.
  - The Stripe form filling is a method with a loop.
  - The order log is a class with a sequence of records.
- **Page generator.** Its nested loop is a pair of methods. They are proved against `RunJobs`, a function giving the pages written in order and the error that stops the run. The layout and the size picker are proved to read back what they were given: title, `lang` attribute, description, and the size labels in catalogue order.

Modules:

| module | models |
|---|---|
| `JsBuiltins` | `trim`, `startsWith`, `toLowerCase`/`toUpperCase`, `String(n)`, `parseInt(_, 10)`, `find`, `splice(i, 1)` |
| `JsonValues` | values of `JSON.parse`, truthiness, property reads, `String()`, `parseInt` of a value, object spread |
| `CartLines` | the size rule, merge-or-append, `splice`, the `reduce` folds, the pay-answer shape |
| `Locale` | `langFromPath` and the `/en` ↔ `/fr` prefix rewrite |
| `SiteCart` | the storefront's cart (`ALTURA_SITE/site/assets/app.js`) |
| `FunnelCart` | the funnel client's cart (`ALTURA_SERVER/site/assets/app.js`) |
| `NodePath` | `split`/`join`, `path.join`, `path.normalize`, `path.basename`, `path.extname` on absolute POSIX paths |
| `ServerConfig` | the environment configuration and the shared body readings |
| `ServerHttp` | JSON replies, `readBody`, the 2xx rule, `safeJoin`, static files, routing |
| `StripeCheckout`, `PaypalCheckout`, `OrderConfirm`, `WhatsappSend` | the four POST endpoints |
| `ServerDispatch` | the request handler as a whole |
| `CheckoutFlows` | each client's checkout request as the server reads it |
| `HtmlEscape` | `escapeHtml` and `escapeAttr` |
| `PageGen` | the page generator |

Integers are unbounded. The model uses integral JSON numbers only, so a `parseInt` result is an `Option<int>` where `None` is NaN.

## Model

| member | source | states |
|---|---|---|
| SiteCart.CalcItemPrice | ALTURA_SITE/site/assets/app.js:93-97 | the price is `price[currency]` when that entry exists and is non-zero; otherwise it is the flat USD price for "USD" and the flat EUR price for any other currency |
| SiteCart.CalcItemPriceLocal | ALTURA_SITE/site/assets/app.js:93-97 | the price depends only on the price entry of that currency and the flat price the currency selects |
| SiteCart.GetPref | ALTURA_SITE/site/assets/app.js:9-11 | with nothing stored, the preference is EUR; otherwise it is the stored one |
| SiteCart.CurrencyToggleSpec | ALTURA_SITE/site/assets/app.js:74-83 | the toggle maps EUR to USD and anything else to EUR; a missing or empty preference shows and toggles as EUR; toggling twice changes the currency both times |
| CartLines.RequireSize | ALTURA_SITE/site/assets/app.js:236-246 | no size (null) exactly for shoes with an empty selection; shoes get the selection, anything else gets "" (the same rule as ALTURA_SERVER/site/assets/app.js:245-253) |
| CartLines.Merge | ALTURA_SITE/site/assets/app.js:252-263 | a matching line is bumped in place, and the length and every other line are unchanged; with no match the new line is appended at the end |
| CartLines.SumAppend | ALTURA_SITE/site/assets/app.js:313 | the `reduce` fold of a concatenation is the sum of the two folds |
| CartLines.SumUpdate | ALTURA_SITE/site/assets/app.js:313 | changing one line changes the fold by exactly the difference of that line's terms |
| CartLines.SumSplice | ALTURA_SITE/site/assets/app.js:339-342 | removing an in-range line takes exactly its term out of the fold |
| CartLines.SumMerge | ALTURA_SITE/site/assets/app.js:252-263 | a merge moves the fold by the bumped line's change, or by the appended line's term |
| CartLines.SumPositive | ALTURA_SITE/site/assets/app.js:86-90 | when every line counts at least 1, the fold is at least the number of lines and is positive exactly when the cart is non-empty |
| CartLines.AnyInit | ALTURA_SERVER/site/assets/app.js:305-309 | some line satisfies a test exactly when one of the earlier lines or the last line does |
| SiteCart.AddedMergesOrAppends | ALTURA_SITE/site/assets/app.js:252-263 | adding a product whose (slug, size, currency) key is already present bumps that line's quantity by exactly 1 and leaves the length and every other line unchanged; otherwise one line is appended with quantity 1 at the given price |
| SiteCart.AddsAtPagePrice | ALTURA_SITE/site/assets/app.js:169-176 | the key's currency is `pref.currency \|\| 'EUR'` (never empty); a new line is appended with one unit, that currency and `calcItemPrice(product, currency)` as its unit amount, and raises the subtotal by that price; a merged line already has that currency and raises the subtotal by its own unit price |
| SiteCart.BumpTotal | ALTURA_SITE/site/assets/app.js:253 | a bump adds one unit price to the line's total |
| SiteCart.AddedTotals | ALTURA_SITE/site/assets/app.js:252-263 | an add raises the badge by exactly 1, and raises the subtotal by the merged line's unit price or by the new line's price |
| SiteCart.RemovedTotals | ALTURA_SITE/site/assets/app.js:339-342 | a remove lowers the badge by that line's quantity and the subtotal by that line's total |
| SiteCart.AddedWellFormed | ALTURA_SITE/site/assets/app.js:252-263 | adding keeps every line at quantity at least 1 |
| SiteCart.RemovedWellFormed | ALTURA_SITE/site/assets/app.js:339-342 | removing keeps every line at quantity at least 1 |
| SiteCart.WellFormedKept | ALTURA_SITE/site/assets/app.js:86-90 | the invariant survives add and remove, and the badge is shown exactly when the cart has a line |
| SiteCart.GetCart | ALTURA_SITE/site/assets/app.js:14-17 | with nothing stored, the cart is empty with email "" and language "en"; otherwise it is the stored one |
| SiteCart.Cart.constructor | ALTURA_SITE/site/assets/app.js:14-17 | a loaded cart holds what `getCart` reads |
| SiteCart.Cart.SyncLang | ALTURA_SITE/site/assets/app.js:48-51 | only the cart's language changes, to the language of the path |
| SiteCart.Cart.AddToCart | ALTURA_SITE/site/assets/app.js:248-264 | without a required size the lines are untouched; otherwise they become the merge-or-append of the product under (slug, size, shown currency), a new line priced by `calcItemPrice` in the shown currency |
| SiteCart.Cart.RemoveAt | ALTURA_SITE/site/assets/app.js:337-342 | the lines become `splice(i, 1)` of the old lines |
| SiteCart.Cart.CallPay | ALTURA_SITE/site/assets/app.js:423-452 | a blank email sends nothing and stores nothing; otherwise the trimmed email is stored and the request goes to the gateway's endpoint with the payload built from the lines |
| SiteCart.BuildPayload | ALTURA_SITE/site/assets/app.js:433-443 | the payload has one item per cart line, in order |
| SiteCart.PayloadFollowsCart | ALTURA_SITE/site/assets/app.js:433-443 | each item copies its line's unit price and quantity; its name is the localised name, followed by " (EU size)" only when the line has a size; the return paths are `/<lang>/order/success/` and `/<lang>/order/failed/` |
| SiteCart.HandlePayResponse | ALTURA_SITE/site/assets/app.js:453-460 | nothing escapes the handler; a failed fetch, a non-2xx answer (its text) and an unreadable JSON body alert the localised error prefix and the error; a 2xx answer navigates to `url \|\| approve_url` when that is truthy and alerts "Invalid server response" otherwise |
| SiteCart.PayResponseRedirects | ALTURA_SITE/site/assets/app.js:454-457 | a 2xx answer with a non-empty `url`, or with a missing or falsy `url` and a non-empty `approve_url`, navigates to it; without both keys it alerts "Invalid server response" |
| Locale.LangFromPath | ALTURA_SITE/site/assets/app.js:31-35 | "fr" exactly when the path starts with "/fr", "en" otherwise |
| Locale.RewriteLangPrefix | ALTURA_SITE/site/assets/app.js:57 | a leading "/en" or "/fr" is replaced by "/" + target and the rest is kept; any other path is unchanged |
| Locale.RewriteKeepsRest | ALTURA_SITE/site/assets/app.js:57 | the rewritten path starts with the target prefix and ends with the old path after its prefix |
| Locale.ToggleOnce | ALTURA_SITE/site/assets/app.js:66-69 | the toggle writes the other language's prefix over the path's prefix |
| Locale.ToggleFlips | ALTURA_SITE/site/assets/app.js:66-69 | on a prefixed path the toggle changes the language and toggling twice gives the path back; other paths are unchanged |
| FunnelCart.DetectBrowserLanguage | ALTURA_SERVER/site/assets/app.js:32-36 | "fr" exactly when the first non-empty navigator language starts with "fr", else "en" |
| FunnelCart.ShouldAutoDetect | ALTURA_SERVER/site/assets/app.js:52-57 | true exactly when the path starts with neither "/en" nor "/fr" and no language is saved |
| FunnelCart.AutoRedirect | ALTURA_SERVER/site/assets/app.js:59-65 | a redirect happens exactly when auto-detection applies; it saves the detected language and goes to `/<lang>` + (the path unless it is "/") + search |
| FunnelCart.RedirectSettles | ALTURA_SERVER/site/assets/app.js:59-65 | the redirect target carries the detected language as its prefix, never triggers another redirect, and keeps the old path after the prefix |
| FunnelCart.SwitchWithoutTargetFlips | ALTURA_SERVER/site/assets/app.js:84-87 | a switch without a target attribute goes to the other language |
| FunnelCart.CalcItemPrice | ALTURA_SERVER/site/assets/app.js:105-108 | the flat USD price for "USD", the flat EUR price otherwise, undefined when absent |
| FunnelCart.LinePrice | ALTURA_SERVER/site/assets/app.js:306-307 | 0 for a slug missing from the catalogue, otherwise the price of the first product with that slug |
| FunnelCart.SubtotalSpec | ALTURA_SERVER/site/assets/app.js:305-309 | the subtotal is NaN exactly when some line's product has no price in the currency; otherwise it is the sum of the known line totals |
| FunnelCart.AddedSpec | ALTURA_SERVER/site/assets/app.js:258-262 | a match on (slug, size, currency) bumps that line's quantity by 1 and changes nothing else; otherwise a priceless quantity-1 line is appended; the badge rises by exactly 1 |
| FunnelCart.RemovedSpec | ALTURA_SERVER/site/assets/app.js:332-335 | removing an in-range line drops exactly that line, keeps the rest in order, and lowers the badge by its quantity |
| FunnelCart.GetCart | ALTURA_SERVER/site/assets/app.js:15-18 | with nothing stored, the cart is empty with email "" and language "en"; otherwise it is the stored one |
| FunnelCart.Cart.constructor | ALTURA_SERVER/site/assets/app.js:15-18 | a loaded cart holds what `getCart` reads |
| FunnelCart.Cart.SyncLang | ALTURA_SERVER/site/assets/app.js:77-80 | only the cart's language changes, to the language of the path |
| FunnelCart.Cart.AddToCart | ALTURA_SERVER/site/assets/app.js:255-262 | without a required size the lines are untouched; otherwise they become the merge-or-append of the product under its key |
| FunnelCart.Cart.RemoveAt | ALTURA_SERVER/site/assets/app.js:330-335 | the lines become `splice(i, 1)` of the old lines |
| FunnelCart.Cart.CallPay | ALTURA_SERVER/site/assets/app.js:418-448 | the trimmed email is always stored (before the check); a request is sent exactly when it is non-blank, to the given endpoint, with the payload built from the lines |
| FunnelCart.BuildPayload | ALTURA_SERVER/site/assets/app.js:431-443 | one payload item per cart line, in order |
| FunnelCart.PayloadFollowsCart | ALTURA_SERVER/site/assets/app.js:437-442 | each item copies its line's slug, code, quantity and size |
| FunnelCart.HandlePayResponse | ALTURA_SERVER/site/assets/app.js:444-456 | a non-2xx answer alerts the localised error prefix followed by the response text; a 2xx JSON answer navigates to `String(data.url)` when it is truthy and alerts "Invalid payment response." ("Réponse de paiement invalide." in French) otherwise; a failed fetch, a body that is not JSON and a null `data` escape uncaught |
| JsBuiltins.TrimStart | ALTURA_SITE/site/assets/app.js:424 | the result is a suffix of the input; every character dropped is white space and the first one kept is not |
| JsBuiltins.TrimEnd | ALTURA_SITE/site/assets/app.js:424 | the result is a prefix of the input; every character dropped is white space and the last one kept is not |
| JsBuiltins.TrimEmptyIffBlank | ALTURA_SITE/site/assets/app.js:424-425 | the trimmed email is empty exactly when every character is white space |
| JsBuiltins.ToLower | ALTURA_SERVER/server/server.js:202 | the result maps each ASCII capital letter of the input to its lower case, in place, and keeps every other character |
| JsBuiltins.ToUpper | ALTURA_SERVER/server/server.js:250 | the result maps each ASCII small letter of the input to its upper case, in place, and keeps every other character |
| JsBuiltins.NatToString | ALTURA_SERVER/server/server.js:222 | decimal digits without a leading zero |
| JsBuiltins.LeadingDigits | ALTURA_SERVER/server/server.js:208 | the longest run of digits at the start of the text |
| JsBuiltins.ParseIntOfIntToString | ALTURA_SERVER/server/server.js:208-209 | `parseInt(String(i), 10)` gives `i` back, for negative numbers too |
| JsBuiltins.NatToStringInjective | ALTURA_SERVER/server/server.js:222-225 | different indices have different decimal texts |
| JsBuiltins.FirstIndex | ALTURA_SITE/site/assets/app.js:252 | the index found satisfies the test and no earlier element does; none is found exactly when no element does |
| JsBuiltins.FindIndex | ALTURA_SITE/site/assets/app.js:252 | the loop finds the first match, or none |
| JsBuiltins.FirstIndexUnique | ALTURA_SITE/site/assets/app.js:252 | the first match is the only index that matches with no match before it |
| JsBuiltins.SpliceStart | ALTURA_SITE/site/assets/app.js:341 | `splice` clamps its start into the list, counting a negative start from the end |
| JsBuiltins.SpliceRemoveSpec | ALTURA_SITE/site/assets/app.js:341 | an in-range index removes exactly that element and keeps the others in order; an index past the end changes nothing; a negative index counts from the end |
| JsonValues.ParseIntOfNumber | ALTURA_SERVER/server/server.js:208 | `parseInt` of a JSON integer gives it back (in JavaScript, for magnitudes below 1e21, where `String(n)` has no exponent) |
| JsonValues.ParseIntOfNonNumeric | ALTURA_SERVER/server/server.js:208 | `parseInt` of undefined, null, a boolean or an object is NaN |
| JsonValues.NoLeadingNumber | ALTURA_SERVER/server/server.js:208 | text starting with neither a sign nor a digit nor white space parses to NaN |
| JsonValues.Indexed | ALTURA_SERVER/server/server.js:319 | spreading an array or string gives each element under its decimal index and no other key |
| JsonValues.ObjOf | ALTURA_SERVER/server/server.js:306 | an object literal has no keys other than the ones it names |
| JsonValues.ObjOfTwo | ALTURA_SERVER/server/server.js:306 | a two-property literal with distinct keys reads back both values, undefined included |
| ServerConfig.LoadConfig | ALTURA_SERVER/server/server.js:16-30 | the base URL defaults to localhost on the port; the PayPal environment is lower-cased with default "sandbox"; the Stripe key is empty exactly when it is unset or empty; the Mailjet sender has non-empty defaults |
| ServerConfig.Fields | ALTURA_SERVER/server/server.js:200 | `body \|\| {}` reads every field the way the body does |
| ServerConfig.ReturnUrl | ALTURA_SERVER/server/server.js:215-216 | a return URL is the base URL + the path (or its default) + the query |
| ServerHttp.ErrorReply | ALTURA_SERVER/server/server.js:32-39 | an error reply has the given status and `{error: message}` |
| ServerHttp.ConcatMonotone | ALTURA_SERVER/server/server.js:44-46 | the accumulated body only grows as chunks arrive |
| ServerHttp.BodyOf | ALTURA_SERVER/server/server.js:41-60 | the body is "Body too large" exactly beyond 1e6 characters; an empty body is null |
| ServerHttp.ReadBody | ALTURA_SERVER/server/server.js:41-60 | the chunk loop agrees with reading the whole text; on "Body too large" it stops at the first chunk that crosses the limit, otherwise it consumes every chunk |
| ServerHttp.HttpsResult | ALTURA_SERVER/server/server.js:118-133 | a call succeeds exactly on a 2xx answer; an empty body reads `{}`, an unparsable body its raw text; failures start "HTTP <status>: " |
| ServerHttp.TokenResult | ALTURA_SERVER/server/server.js:272-285 | the token exchange succeeds exactly on a 2xx answer with a body that parses; an unparsable or empty body is "Bad token response" |
| ServerHttp.SafeJoin | ALTURA_SERVER/server/server.js:62-66 | null exactly when the normalised join does not start with the base as a string; otherwise it is that path |
| ServerHttp.SafeJoinWithin | ALTURA_SERVER/server/server.js:62-66 | a segment-wise guard: an admitted path is the normalised join |
| ServerHttp.PlainTargetsJoinUnderRoot | ALTURA_SERVER/server/server.js:62-66 | a target without ".." pieces joins to the base or under "base/"; both guards admit it |
| ServerHttp.SafeJoinAdmitsSibling | ALTURA_SERVER/server/server.js:62-66 | the string-prefix guard admits "/../xy" under base "/x", which leads to the sibling "/xy"; the segment-wise guard refuses it |
| ServerHttp.SafeJoinWithinInside | ALTURA_SERVER/server/server.js:62-66 | whatever the segment-wise guard admits resolves under the base's segments |
| ServerHttp.JoinedKeepsRoot | ALTURA_SERVER/server/server.js:63 | joining a target without ".." pieces keeps the base's segments in front |
| ServerHttp.StaticPath | ALTURA_SERVER/server/server.js:83 | a path ending in "/" gets "index.html" appended; others are unchanged |
| ServerHttp.ServeStatic | ALTURA_SERVER/server/server.js:80-101 | 400 exactly when `safeJoin` refuses; an admitted path is served exactly when it names a file, and is 404 otherwise; a served file is the joined path; its content type comes from the MIME table of its lower-cased extension, default `application/octet-stream`; ".html" is "no-cache", everything else immutable |
| ServerHttp.DirectoryServesIndex | ALTURA_SERVER/server/server.js:83-97 | a directory request that is served is served as HTML with "no-cache" |
| ServerHttp.DirectoryJoinsIndex | ALTURA_SERVER/server/server.js:83-84 | a directory request joins to a file named "index.html" |
| ServerHttp.IndexContentType | ALTURA_SERVER/server/server.js:94-96 | a file named "index.html" has extension ".html" and content type HTML |
| ServerHttp.RouteOf | ALTURA_SERVER/server/server.js:375-381 | a URL outside "/api/" is static; an API URL goes to the handler its (method, path) names, or to the 404 fallback exactly when it names none |
| ServerHttp.NotFoundReply | ALTURA_SERVER/server/server.js:372 | the fallback is 404 `{error: "Not found"}` |
| ServerDispatch.RespondSpec | ALTURA_SERVER/server/server.js:375-385 | a request is an API request exactly when its URL starts with "/api/"; every API reply is 200, 400, 404 or 500, and is 404 exactly for an unrouted (method, path); only POST endpoints make outbound calls |
| ServerDispatch.StripeStatuses | ALTURA_SERVER/server/server.js:196-239 | the Stripe endpoint answers 200, 400 or 500, and calls out only after reading its body |
| ServerDispatch.PaypalStatuses | ALTURA_SERVER/server/server.js:242-310 | the PayPal endpoint answers 200, 400 or 500, and calls out only after reading its body |
| ServerDispatch.WhatsappStatuses | ALTURA_SERVER/server/server.js:348-370 | the WhatsApp endpoint answers 200, 400 or 500 |
| StripeCheckout.ToLineItem | ALTURA_SERVER/server/server.js:206-211 | a null item throws; the unit amount is `parseInt(unit_amount)`; the quantity is `parseInt(quantity)` or 1 when it is falsy; the name is `String(name)` or "ALTURA Item <i+1>" |
| StripeCheckout.LineItems | ALTURA_SERVER/server/server.js:206-211 | the map throws exactly when some item is null; otherwise there is one line item per item, in order |
| StripeCheckout.SetField | ALTURA_SERVER/server/server.js:222-225 | a new key is appended with its value; an existing key keeps the form's length |
| StripeCheckout.ItemKeyInjective | ALTURA_SERVER/server/server.js:222-225 | two `line_items[i][field]` keys are equal only for the same item and the same field |
| StripeCheckout.FlattenShape | ALTURA_SERVER/server/server.js:221-226 | the item fields are exactly four per item, item after item |
| StripeCheckout.StoreLineItem | ALTURA_SERVER/server/server.js:221-226 | one pass of the `forEach` body adds that item's four fields to the form |
| StripeCheckout.BuildStripeForm | ALTURA_SERVER/server/server.js:213-226 | the loop builds the header fields followed by the four fields of each item in order |
| StripeCheckout.HandleStripe | ALTURA_SERVER/server/server.js:196-239 | the endpoint as it runs, with the form built by the loop, agrees with its specification |
| StripeCheckout.StripeValidationOrder | ALTURA_SERVER/server/server.js:197-201 | a body that cannot be read is 500; a missing key is 400 before the items are examined; missing, non-array or empty items are 400 "No items"; neither 400 calls out |
| StripeCheckout.StripeCallsOnce | ALTURA_SERVER/server/server.js:228-238 | a call that goes out is exactly one request to the sessions URL with the secret key, carrying the header fields plus four fields per item; the answer is 200 or 500 |
| StripeCheckout.FormKeysDistinct | ALTURA_SERVER/server/server.js:213-226 | no key of the form is written twice |
| StripeCheckout.HeaderKeyNames | ALTURA_SERVER/server/server.js:213-218 | the header is mode, success_url, cancel_url and, optionally, customer_email |
| StripeCheckout.StripeDefaults | ALTURA_SERVER/server/server.js:206-209 | a falsy quantity is sent as "1" and a falsy name as "ALTURA Item <i+1>" |
| StripeCheckout.StripeCallForm | ALTURA_SERVER/server/server.js:202-238 | the form sent is the header followed by the request's line items in `(currency \|\| 'EUR').toLowerCase()` |
| StripeCheckout.StripeCurrencySent | ALTURA_SERVER/server/server.js:202-225 | every `line_items[i][price_data][currency]` field holds the client's currency lower-cased, and "eur" when the client sends none |
| StripeCheckout.StripeCurrencyNotText | ALTURA_SERVER/server/server.js:202 | a truthy currency that is not a string makes `toLowerCase` throw: 500, and Stripe is not called |
| StripeCheckout.StripeReturnUrls | ALTURA_SERVER/server/server.js:213-218 | success_url is the base URL + (success_path or "/en/order/success/") + "?sid={CHECKOUT_SESSION_ID}"; cancel_url ends "?canceled=1"; customer_email is present exactly when it is truthy |
| PaypalCheckout.ItemCentsOfNumbers | ALTURA_SERVER/server/server.js:251 | an item with integral unit amount and non-zero quantity costs their product |
| PaypalCheckout.ItemCentsOfNull | ALTURA_SERVER/server/server.js:251 | an item whose unit amount is null costs NaN |
| PaypalCheckout.ReduceThrows | ALTURA_SERVER/server/server.js:251 | the total's `reduce` throws exactly when some item is null |
| PaypalCheckout.ReduceSpec | ALTURA_SERVER/server/server.js:251 | without null items the total is NaN exactly when some item's cents are NaN, and is otherwise the sum of the items' cents |
| PaypalCheckout.TotalCentsSpec | ALTURA_SERVER/server/server.js:251 | the order total in cents: throws on a null item, NaN on an unpriced one, otherwise the sum of unit amount × (quantity or 1) |
| PaypalCheckout.ParseFormatCents | ALTURA_SERVER/server/server.js:252 | the two-decimal text of a total in cents reads back as that total, for negative totals too |
| PaypalCheckout.FormatCentsInjective | ALTURA_SERVER/server/server.js:252 | different totals are sent as different amounts |
| PaypalCheckout.CentsBodyParts | ALTURA_SERVER/server/server.js:252 | the text is the whole units, a point, and exactly two digits |
| PaypalCheckout.FindApproveSpec | ALTURA_SERVER/server/server.js:305 | the search stops at the first link that is an approve link or null; it throws on null and returns the approve link otherwise; no stop gives none |
| PaypalCheckout.FindApproveWithoutNulls | ALTURA_SERVER/server/server.js:305 | without null links the result is the first link whose rel is "approve", or none |
| PaypalCheckout.ApproveReplySpec | ALTURA_SERVER/server/server.js:305-306 | the reply is 200 with the order id, and with approve_url the href of the first approve link, or null when there is none |
| PaypalCheckout.ApproveReplyFound | ALTURA_SERVER/server/server.js:305-306 | the reply is exactly `{id, approve_url}` built from the link found |
| PaypalCheckout.ApproveReplyStatus | ALTURA_SERVER/server/server.js:305-308 | any order reply is 200, or 500 when reading the links throws |
| PaypalCheckout.CreateOrderStatus | ALTURA_SERVER/server/server.js:256-309 | once the total is known, the endpoint answers 200 or 500 |
| PaypalCheckout.PaypalValidationOrder | ALTURA_SERVER/server/server.js:243-248 | a body that cannot be read is 500; a missing client id or secret is 400 before the items; missing, non-array or empty items are 400 "No items"; a call goes out only when all three pass |
| PaypalCheckout.PaypalCallSequence | ALTURA_SERVER/server/server.js:254-303 | the token request always comes first; the order request follows exactly when the token exchange settles on a body that is not null, whether or not it holds an `access_token`, and carries the order JSON to `/v2/checkout/orders`; the live API is used exactly for "live"; a 200 needs both calls |
| PaypalCheckout.OrderSentWithoutAccessToken | ALTURA_SERVER/server/server.js:290-291 | a 2xx token answer without `access_token` still sends the order request, authorised as `Bearer undefined` |
| PaypalCheckout.TokenUrlLive | ALTURA_SERVER/server/server.js:254 | the token URL is on the live host exactly for the "live" environment |
| PaypalCheckout.PaypalAmount | ALTURA_SERVER/server/server.js:250-252 | a null item means no call goes out; with priced items the order goes out for the formatted sum of their cents in the client's currency upper-cased, "EUR" when the client sends none |
| PaypalCheckout.PaypalCurrencyNotText | ALTURA_SERVER/server/server.js:250 | a truthy currency that is not a string makes `toUpperCase` throw: 500, and PayPal is not called |
| OrderConfirm.Hex | ALTURA_SERVER/server/server.js:176 | two hex digits per byte |
| OrderConfirm.UnHexHex | ALTURA_SERVER/server/server.js:176 | the hex text reads back as the bytes |
| OrderConfirm.NewId | ALTURA_SERVER/server/server.js:175-177 | an id is the prefix, "_" and twice as many hex digits as random bytes |
| OrderConfirm.NewIdInjective | ALTURA_SERVER/server/server.js:175-177 | different random bytes give different ids |
| OrderConfirm.ConfirmSpec | ALTURA_SERVER/server/server.js:313-344 | a record is logged exactly when the body was read; the reply is then 200 with the new order id; the record holds every body field, and id and created_at where the body has none; an unreadable body is 500 |
| OrderConfirm.MailSpec | ALTURA_SERVER/server/server.js:324-342 | at most one mail call; it goes out exactly when both Mailjet keys and the record's email are set; it goes to Mailjet with the record's email and language; its failure does not change the reply |
| OrderConfirm.OrderLog.constructor | ALTURA_SERVER/server/server.js:179-181 | the log starts empty |
| OrderConfirm.OrderLog.HandleConfirm | ALTURA_SERVER/server/server.js:313-345 | the reply is the confirmation's; a read body appends exactly one record `{id, created_at, ...body}` to the log; an unreadable body leaves it unchanged |
| WhatsappSend.WhatsappSpec | ALTURA_SERVER/server/server.js:348-370 | a missing token or phone number id is 400 with no call; a call goes out exactly when the body is read, both are configured and `to` and `text` are truthy; it is one text message to the number's messages URL, and the reply is 200 exactly when that call succeeds |
| NodePath.JoinSplit | ALTURA_SERVER/server/server.js:63 | splitting at "/" and joining with "/" gives the text back |
| NodePath.ResolvePlain | ALTURA_SERVER/server/server.js:63 | normalising plain segments keeps them all, in order |
| NodePath.ResolveNoParent | ALTURA_SERVER/server/server.js:63 | without ".." normalising never drops what came before |
| NodePath.ResolveConcat | ALTURA_SERVER/server/server.js:63 | normalisation runs left to right, piece by piece |
| NodePath.SplitPathText | ALTURA_SERVER/server/server.js:63 | an absolute path splits into "" and its segments |
| NodePath.BaseName | ALTURA_SERVER/server/server.js:94 | the last segment is a slash-free ending that follows a "/" |
| NodePath.NormalizeKeepsName | ALTURA_SERVER/server/server.js:84 | normalising keeps a path's plain last segment |
| NodePath.LastDot | ALTURA_SERVER/server/server.js:94 | the last "." of a text, with no dot after it |
| NodePath.ExtName | ALTURA_SERVER/server/server.js:94 | an extension is empty, or a dot followed by dot-free, slash-free text |
| NodePath.ExtNameOf | ALTURA_SERVER/server/server.js:94 | the extension is taken from the last segment |
| HtmlEscape.EscapeHtml | ALTURA_DOCS/docs/generate_pages.js:28 | the escaped text holds no "<" or ">" |
| HtmlEscape.UnescapeEscapeHtml | ALTURA_DOCS/docs/generate_pages.js:28 | escaping loses nothing: the three entities read back to the original text, every character in place |
| HtmlEscape.EscapeHtmlPlain | ALTURA_DOCS/docs/generate_pages.js:28 | text without "&", "<" and ">" is copied unchanged |
| HtmlEscape.EscapeHtmlConcat | ALTURA_DOCS/docs/generate_pages.js:28 | escaping works character by character |
| HtmlEscape.EscapeAttr | ALTURA_DOCS/docs/generate_pages.js:29 | the escaped value holds no double quote |
| HtmlEscape.UnescapeEscapeAttr | ALTURA_DOCS/docs/generate_pages.js:29 | a value without "&" reads back to itself: only quotes are replaced |
| HtmlEscape.EscapeAttrMerges | ALTURA_DOCS/docs/generate_pages.js:29 | `escapeAttr` is not injective: a quote and the text "&quot;" escape alike |
| PageGen.LangAttr | ALTURA_DOCS/docs/generate_pages.js:11 | the `lang` attribute is "fr" exactly for "fr", "en" otherwise |
| PageGen.LayoutParts | ALTURA_DOCS/docs/generate_pages.js:12-25 | the page is the head, the escaped title, and the optional description followed by the rest |
| PageGen.LayoutReadsBack | ALTURA_DOCS/docs/generate_pages.js:10-26 | a page reads back its `lang` attribute and its title; it has a description meta tag exactly when the description is truthy, holding that description when it has no "&" |
| PageGen.ReadHead | ALTURA_DOCS/docs/generate_pages.js:13-17 | a page head reads back its language, its unescaped title and what follows it |
| PageGen.ReadDescMeta | ALTURA_DOCS/docs/generate_pages.js:18 | a truthy description writes a meta tag that reads back as its text |
| PageGen.NoDescMeta | ALTURA_DOCS/docs/generate_pages.js:18 | a falsy description writes no meta tag |
| PageGen.PageCloseIsNoMeta | ALTURA_DOCS/docs/generate_pages.js:19-25 | nothing after the description reads as a meta tag |
| PageGen.SwitchLeadsToOtherLanguage | ALTURA_DOCS/docs/generate_pages.js:41-51 | the switch of an "en" or "fr" page leads to the other language; its label is that language's code in upper case; it targets the product's path_root, or "/" |
| PageGen.SizeLabels | ALTURA_DOCS/docs/generate_pages.js:87 | one label per size, in catalogue order, each `String(s)` |
| PageGen.ReadButtonsBack | ALTURA_DOCS/docs/generate_pages.js:87 | the size buttons read back as the size labels, in order |
| PageGen.PickerSpec | ALTURA_DOCS/docs/generate_pages.js:83-89 | the picker is omitted exactly when sizes is falsy or empty; a non-empty array gives the opening text followed by one button per size, reading back as the sizes in catalogue order |
| PageGen.PickerOmitted | ALTURA_DOCS/docs/generate_pages.js:83 | the picker is omitted exactly when sizes is falsy or has a falsy length |
| PageGen.PickerReads | ALTURA_DOCS/docs/generate_pages.js:86-88 | after any opening text the buttons read back as the sizes |
| PageGen.RootText | ALTURA_DOCS/docs/generate_pages.js:4 | the site root is the absolute path of its four segments |
| PageGen.NormalizeClean | ALTURA_DOCS/docs/generate_pages.js:33 | a path of plain segments is already normal |
| PageGen.PageFileSpec | ALTURA_DOCS/docs/generate_pages.js:33-145 | the page file of a plain language and slug under a clean root is `<root>/<lang>/p/<slug>/index.html` |
| PageGen.PagePathSpec | ALTURA_DOCS/docs/generate_pages.js:4-145 | the page file is `/mnt/data/altura_turnkey/site/<lang>/p/<slug>/index.html` |
| PageGen.PageFileInjective | ALTURA_DOCS/docs/generate_pages.js:33-145 | under any clean root, the file determines the language and the slug |
| PageGen.PagePathInjective | ALTURA_DOCS/docs/generate_pages.js:33-145 | different languages or slugs give different files |
| PageGen.PagePathsDiffer | ALTURA_DOCS/docs/generate_pages.js:33-145 | two (language, slug) pairs that differ are written to different files |
| PageGen.PageForOk | ALTURA_DOCS/docs/generate_pages.js:33-145 | a page that is written was built from a string slug and a body that did not throw |
| PageGen.PageForPath | ALTURA_DOCS/docs/generate_pages.js:33-145 | a written page goes to the file of its slug and language |
| PageGen.PageForSpec | ALTURA_DOCS/docs/generate_pages.js:35-144 | a written page's `lang` is "fr" exactly for French, its title is the localised name + " — ALTURA", and it has a description exactly when the localised description is truthy |
| PageGen.PageOfSpec | ALTURA_DOCS/docs/generate_pages.js:144 | the same three facts for a page built from a known slug and body |
| PageGen.Jobs | ALTURA_DOCS/docs/generate_pages.js:31-32 | the loop's jobs are the products in English, then the products in French |
| PageGen.RunJobsSpec | ALTURA_DOCS/docs/generate_pages.js:31-147 | the pages written are, in order, the pages of the first jobs; the run completes exactly when no job throws; otherwise it stops at the first job that throws, with that job's error |
| PageGen.RunStops | ALTURA_DOCS/docs/generate_pages.js:31-147 | a run that has thrown stays as it is |
| PageGen.RunStep | ALTURA_DOCS/docs/generate_pages.js:31-147 | one more job appends its page, or its error ends the whole run |
| PageGen.GenerateWith | ALTURA_DOCS/docs/generate_pages.js:31-147 | the nested loop writes exactly the pages of the run over all jobs, and stops with the same error |
| PageGen.GenerateLanguage | ALTURA_DOCS/docs/generate_pages.js:32-146 | the inner loop extends the run by one language's jobs, or ends it with the first error |
| PageGen.GeneratePages | ALTURA_DOCS/docs/generate_pages.js:31-147 | the generator run over the catalogue's products |
| PageGen.MakerWritesPagePaths | ALTURA_DOCS/docs/generate_pages.js:33-145 | each page the loop body writes goes to the file of its slug and language |
| PageGen.AllPages | ALTURA_DOCS/docs/generate_pages.js:31-145 | a run that completes writes exactly two pages per product: page k is the English page of product k, and page n + k its French page, each at the file of its slug and language |
| PageGen.WritesSeparates | ALTURA_DOCS/docs/generate_pages.js:33-145 | writing pages to their own files separates different (language, slug) jobs |
| PageGen.RunPageAt | ALTURA_DOCS/docs/generate_pages.js:31-145 | page k of a completed run is the page of job k |
| PageGen.PagesDistinct | ALTURA_DOCS/docs/generate_pages.js:31-145 | with distinct plain slugs, no two pages of a completed run go to the same file |
| PageGen.JobsSeparated | ALTURA_DOCS/docs/generate_pages.js:31-145 | two different jobs that are written write different files |
| CheckoutFlows.SiteEndpointsRouted | ALTURA_SITE/site/assets/app.js:445 | both storefront pay buttons reach the server's checkout endpoints |
| CheckoutFlows.SiteItemsAt | ALTURA_SITE/site/assets/app.js:436-440 | the posted items are the cart's lines, one JSON object each, in order |
| CheckoutFlows.SiteItemCents | ALTURA_SITE/site/assets/app.js:438-439 | the server prices each storefront item as its line's unit price × quantity |
| CheckoutFlows.SitePaypalTotal | ALTURA_SITE/site/assets/app.js:433-443 | PayPal is asked for exactly the subtotal the storefront cart shows |
| CheckoutFlows.SiteLineItem | ALTURA_SITE/site/assets/app.js:438-439 | each posted line becomes a Stripe line item with the line's unit price and quantity |
| CheckoutFlows.SiteStripeLines | ALTURA_SITE/site/assets/app.js:433-443 | Stripe gets one line item per cart line, with its unit price and quantity |
| CheckoutFlows.FunnelButtonsUnrouted | ALTURA_SERVER/site/assets/app.js:461-462 | both funnel pay buttons post to paths that fall to the server's 404 |
| CheckoutFlows.FunnelEndpointsRouted | ALTURA_SERVER/site/assets/app.js:461-462 | the corrected endpoints reach the Stripe and PayPal handlers |
| CheckoutFlows.FunnelPayloadUnpriced | ALTURA_SERVER/site/assets/app.js:437-442 | for any non-empty funnel cart, PayPal's total is NaN (sent as "NaN") and every Stripe line item has a NaN unit amount and quantity 1 |
| CheckoutFlows.FunnelItemUnpriced | ALTURA_SERVER/site/assets/app.js:437-442 | one funnel item has no price for the server and quantity 1 |
| CheckoutFlows.CheckoutItems | ALTURA_SERVER/site/assets/app.js:437-442 | the corrected payload posts one priced item per cart line, in order |
| CheckoutFlows.CheckoutItemCents | ALTURA_SERVER/site/assets/app.js:306-308 | a corrected item costs the catalogue price × quantity, or NaN when the catalogue has none |
| CheckoutFlows.FunnelPaypalTotal | ALTURA_SERVER/site/assets/app.js:355-359 | with the corrected payload, PayPal is asked for exactly the funnel's catalogue-priced subtotal |
| CheckoutFlows.FunnelIgnoresApproveUrl | ALTURA_SERVER/site/assets/app.js:454-456 | a successful PayPal answer (id and approve_url, no url) makes the funnel alert instead of navigating |
| CheckoutFlows.FunnelFollowsApproveUrl | ALTURA_SERVER/site/assets/app.js:454-456 | the corrected handler navigates to the approval link, and agrees with the original wherever `url` is set |

## Left out

- Browser storage, the DOM, `innerHTML` templates, `alert`, `location` navigation and event wiring. The model computes only the values they receive. A storage read is an `Option` of the stored value, with `None` where the script falls back to its default.
- `money()`: it relies on `Intl.NumberFormat` and float division.
- Product listings, product-card markup and the gender filter of both clients, as rendering.
- Floating point. JSON numbers are integers (so `String(n)` never takes exponent form, as JavaScript's does from 1e21), `parseInt` results are `Option<int>` (NaN is `None`), and the PayPal amount uses integer quotient and remainder on cents instead of `toFixed(2)`.
- Outbound HTTPS (Stripe, PayPal, Mailjet, WhatsApp), the base64 of Basic authentication, and `https.request` plumbing. Each call is an `Outbound` value answered by the `transport` oracle.
- ServerHttp.HttpsResult: a failure on a body that parses is reported with the raw text, not `JSON.stringify(parsed)`; the two can differ in whitespace and key order.
- ServerHttp.TokenResult: the same simplification for the token exchange: a non-2xx answer whose body parses is reported with the raw text, not `JSON.stringify(parsed)`.
- JsBuiltins.ToLower: maps only the ASCII letters A-Z; JavaScript's `toLowerCase` also maps every other cased Unicode character. The server applies it to configuration and client currency codes, which are ASCII in practice.
- JsBuiltins.ToUpper: maps only the ASCII letters a-z; JavaScript's `toUpperCase` also maps every other cased Unicode character and can lengthen the text ("ß" becomes "SS").
- `crypto.randomBytes` and `new Date().toISOString()`: the random bytes, the clock and the health endpoint's time are parameters.
- File system: `fs.stat`, `createReadStream`, `appendFileSync`, `readFileSync`, `mkdirSync` and `writeFileSync`. The order log is a sequence of records; the generated pages are a sequence of (path, html) pairs; `isFile` stands for `fs.stat`.
- Key order of the JSON written to the order log and of JSON replies: objects are maps.
- `http.createServer`, `listen`, WHATWG URL parsing and the streaming of request bodies. A request is a method, its raw URL and its parsed path; the body is a sequence of chunks.
- Exception texts: a `TypeError` from reading a property of null or undefined, or from mapping a non-array, is modelled by its cause with an approximate message.
- `console.log` and `console.error`.
- The string-prefix weakness of `safeJoin` (ServerHttp.SafeJoinAdmitsSibling) is not a finding. The parsed request path never contains ".." pieces, and ServerHttp.PlainTargetsJoinUnderRoot shows the guard then never refuses.
- The page body keeps only the parts that carry logic or that can throw: the header and language switch, the product card, the size picker, the feature list and the footer tagline. The gallery, trust badges, price slot, call-to-action buttons, "why it exists", inclusivity text, model images and footer links are static markup and are left out.
- The brand tagline in the footer is written unescaped, as the generator does.
- HtmlEscape.UnescapeEscapeAttr: requires the value to have no "&", because `escapeAttr` does not escape "&" and so is not injective (HtmlEscape.EscapeAttrMerges).
- PageGen.LayoutReadsBack: the description is read back only for a description without "&", for the same reason.
- PageGen.AllPages: stated over any page function that writes each page to its slug's file (PageGen.WritesPagePaths). PageGen.MakerWritesPagePaths proves that the generator's own page function is one.
- PageGen.PagesDistinct: stated over any page function that separates pages (PageGen.SeparatesPages). PageGen.WritesSeparates derives it from PageGen.WritesPagePaths.
- CheckoutFlows.SitePaypalTotal: requires every cart line to hold at least one unit (SiteCart.WellFormed). Add and remove keep this invariant (SiteCart.WellFormedKept). A hand-edited stored cart with quantity 0 would make `parseInt(0 \|\| 1)` count 1.
- `setup.js` and `start.js`: interactive set-up and process start-up, with no logic to verify.

## Findings

| source | as written | input that shows it | evidently intended | confidence | as-written member | corrected member |
|---|---|---|---|---|---|---|
| ALTURA_SERVER/site/assets/app.js:461-462 | the funnel's pay buttons post to `/api/stripe/checkout` and `/api/paypal/order` | POST `/api/stripe/checkout`: the server routes it to its 404 fallback (ALTURA_SERVER/server/server.js:372) | post to `/api/checkout/stripe` and `/api/checkout/paypal`, the paths the server routes | not executed | CheckoutFlows.FunnelButtonsUnrouted | CheckoutFlows.FunnelEndpointsRouted |
| ALTURA_SERVER/site/assets/app.js:437-442 | each posted item carries slug, code, qty and size, but no `unit_amount`, `quantity` or `name` | a cart with one line, qty 1: the server's PayPal total is NaN (sent as "NaN") and Stripe's unit amount is NaN with quantity 1 | post each line's catalogue price as `unit_amount` and its quantity as `quantity`, so the server charges the subtotal the page shows | not executed | CheckoutFlows.FunnelPayloadUnpriced | CheckoutFlows.FunnelPaypalTotal |
| ALTURA_SERVER/site/assets/app.js:454-456 | the client navigates only to `data.url` | a 200 PayPal answer `{id: "X", approve_url: "https://…"}`: the client alerts "Invalid payment response" | follow `data.url \|\| data.approve_url`, as the storefront does | not executed | CheckoutFlows.FunnelIgnoresApproveUrl | CheckoutFlows.FunnelFollowsApproveUrl |
