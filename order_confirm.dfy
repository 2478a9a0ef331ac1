/** Order confirmation (`POST /api/order/confirm` in
    ALTURA_SERVER/server/server.js): a fresh order id, the record appended
    to the order log, and the optional Mailjet confirmation. */
module OrderConfirm {
  import opened JsBuiltins
  import opened JsonValues
  import opened ServerHttp
  import opened ServerConfig

  // ---------------------------------------------------------------------------
  // Order ids
  // ---------------------------------------------------------------------------

  newtype byte = x: int | 0 <= x < 256

  function HexDigit(d: nat): (c: char)
    requires d < 16
  {
    if d < 10 then DigitChar(d) else ('a' as int + d - 10) as char
  }

  predicate IsHexDigit(c: char) {
    IsDigit(c) || 'a' <= c <= 'f'
  }

  function HexValue(c: char): (d: nat)
    requires IsHexDigit(c)
    ensures d < 16
  {
    if IsDigit(c) then DigitValue(c) else c as int - 'a' as int + 10
  }

  /** `Buffer.toString('hex')`: two lower-case digits per byte, high first. */
  function Hex(bytes: seq<byte>): (t: string)
    ensures |t| == 2 * |bytes|
    ensures forall k :: 0 <= k < |t| ==> IsHexDigit(t[k])
  {
    if bytes == [] then ""
    else [HexDigit(bytes[0] as nat / 16), HexDigit(bytes[0] as nat % 16)] + Hex(bytes[1..])
  }

  /** Reads pairs of hex digits back into bytes. */
  function UnHex(t: string): seq<byte>
    requires |t| % 2 == 0 && forall k :: 0 <= k < |t| ==> IsHexDigit(t[k])
  {
    if t == [] then []
    else [(HexValue(t[0]) * 16 + HexValue(t[1])) as byte] + UnHex(t[2..])
  }

  /** The hex text gives the bytes back, so distinct random bytes give
      distinct ids. */
  lemma {:induction false} UnHexHex(bytes: seq<byte>)
    ensures UnHex(Hex(bytes)) == bytes
  {
    if bytes != [] {
      var t := Hex(bytes);
      var b := bytes[0] as nat;
      assert t[2..] == Hex(bytes[1..]);
      assert HexValue(t[0]) == b / 16 && HexValue(t[1]) == b % 16;
      UnHexHex(bytes[1..]);
    }
  }

  /** `newId(prefix)`: the prefix, an underscore and the hex of the random
      bytes (`crypto.randomBytes(12)`, given here as a parameter). */
  function NewId(prefix: string, random: seq<byte>): (id: string)
    ensures |id| == |prefix| + 1 + 2 * |random|
    ensures StartsWith(id, prefix + "_")
  {
    assert (prefix + "_" + Hex(random))[..|prefix| + 1] == prefix + "_";
    prefix + "_" + Hex(random)
  }

  /** Different random bytes give different ids. */
  lemma NewIdInjective(prefix: string, r1: seq<byte>, r2: seq<byte>)
    requires NewId(prefix, r1) == NewId(prefix, r2)
    ensures r1 == r2
  {
    var n := |prefix| + 1;
    assert Hex(r1) == NewId(prefix, r1)[n..];
    assert Hex(r2) == NewId(prefix, r2)[n..];
    UnHexHex(r1);
    UnHexHex(r2);
  }

  // ---------------------------------------------------------------------------
  // The record and the confirmation mail
  // ---------------------------------------------------------------------------

  /** `{ id, created_at, ...body }`: the body's own keys come last and win. */
  function Record(orderId: string, now: string, body: Json): Json {
    JObj(map["id" := JStr(orderId), "created_at" := JStr(now)] + Spread(Some(body)))
  }

  const MailjetUrl := "https://api.mailjet.com/v3.1/send"

  /** The message: from the configured sender, to the record's email, in
      French when the record's language is "fr" and in English otherwise;
      the text names the generated order id. */
  function MailJson(cfg: Config, record: Json, orderId: string): Json {
    var fr := Get(record, "lang") == Some(JStr("fr"));
    var email := Get(record, "email");
    JObj(map["Messages" := JArr([JObj(map[
      "From" := JObj(map["Email" := JStr(cfg.mjSenderEmail), "Name" := JStr(cfg.mjSenderName)]),
      "To" := JArr([JObj(if email.Some? then map["Email" := email.value] else map[])]),
      "Subject" := JStr(if fr then "Confirmation de commande ALTURA" else "ALTURA Order Confirmation"),
      "TextPart" := JStr(if fr then "Merci pour votre commande ALTURA. Commande: " + orderId
                         else "Thanks for your ALTURA order. Order: " + orderId)])])])
  }

  /** The mail request, made only when both Mailjet keys are set and the
      record has a truthy email. */
  function MailCalls(cfg: Config, record: Json, orderId: string): seq<Outbound> {
    if cfg.mjPublic != "" && cfg.mjPrivate != "" && Truthy(Get(record, "email")) then
      [Outbound(MailjetUrl, Basic(cfg.mjPublic, cfg.mjPrivate), JsonBody(MailJson(cfg, record, orderId)))]
    else []
  }

  /** What the endpoint does: the record it logs (none when the body could
      not be read) and its reply with the requests it made. */
  datatype Confirmation = Confirmation(logged: Option<Json>, handled: Handled)

  /** The endpoint, given the body `readBody` settled on, the random bytes
      and the clock's ISO time. The mail call is awaited but its outcome is
      ignored, so the reply involves no transport. */
  function Confirm(cfg: Config, body: Result<Json>, random: seq<byte>, now: string): Confirmation {
    match body
    case Err(m) => Confirmation(None, Handled(ErrorReply(500, ErrorText(m)), []))
    case Ok(b) =>
      var orderId := NewId("order", random);
      var record := Record(orderId, now, b);
      Confirmation(Some(record), Handled(
        Reply(200, JObj(map["ok" := JBool(true), "order_id" := JStr(orderId)])),
        MailCalls(cfg, record, orderId)))
  }

  /** What the log keeps for every record: an object with an id and a
      creation time. */
  predicate WellFormedRecord(r: Json) {
    r.JObj? && "id" in r.fields && "created_at" in r.fields
  }

  /** A read body is always logged and always confirmed with 200 and the
      generated id, whatever the mail does; the logged record carries every
      key of the body with the body's value, and the generated id and time
      unless the body brings its own. */
  lemma ConfirmSpec(cfg: Config, body: Result<Json>, random: seq<byte>, now: string)
    ensures var c := Confirm(cfg, body, random, now);
      c.logged.Some? <==> body.Ok?
    ensures var c := Confirm(cfg, body, random, now);
      body.Ok? ==> (c.handled.reply.status == 200
        && Get(c.handled.reply.body, "order_id") == Some(JStr(NewId("order", random)))
        && WellFormedRecord(c.logged.value))
    ensures var c := Confirm(cfg, body, random, now);
      body.Ok? && body.value.JObj? ==>
        (forall key :: key in body.value.fields ==> Get(c.logged.value, key) == Some(body.value.fields[key]))
        && ("id" !in body.value.fields ==> Get(c.logged.value, "id") == Some(JStr(NewId("order", random))))
        && ("created_at" !in body.value.fields ==> Get(c.logged.value, "created_at") == Some(JStr(now)))
    ensures body.Err? ==> Confirm(cfg, body, random, now).handled.reply.status == 500
  {
  }

  /** The confirmation mail goes out exactly when both Mailjet keys are set
      and the email is truthy, to that email, in French exactly when the
      language is "fr", and names the id the client is given. */
  lemma MailSpec(cfg: Config, b: Json, random: seq<byte>, now: string)
    requires b.JObj?
    ensures var c := Confirm(cfg, Ok(b), random, now);
      |c.handled.calls| <= 1
      && (|c.handled.calls| == 1 <==> cfg.mjPublic != "" && cfg.mjPrivate != "" && Truthy(Get(b, "email")))
    ensures var c := Confirm(cfg, Ok(b), random, now);
      var id := NewId("order", random);
      |c.handled.calls| == 1 ==>
        (c.handled.calls[0].url == MailjetUrl
        && c.handled.calls[0].body == JsonBody(MailJson(cfg, c.logged.value, id))
        && Get(c.logged.value, "email") == Get(b, "email")
        && (Get(b, "lang") == Some(JStr("fr")) <==> Get(c.logged.value, "lang") == Some(JStr("fr")))
        && ("id" !in b.fields ==> Get(c.logged.value, "id") == Some(JStr(id))))
  {
    var record := Record(NewId("order", random), now, b);
    assert Spread(Some(b)) == b.fields;
  }

  // ---------------------------------------------------------------------------
  // The order log
  // ---------------------------------------------------------------------------

  /** `orders.jsonl`: one record per line, in the order they were appended. */
  class OrderLog {
    var records: seq<Json>

    predicate Valid()
      reads this
    {
      forall k :: 0 <= k < |records| ==> WellFormedRecord(records[k])
    }

    constructor Empty()
      ensures records == [] && Valid()
    {
      records := [];
    }

    /** The endpoint as the server runs it: the record is appended before
        the mail is sent and before the reply. */
    method HandleConfirm(cfg: Config, body: Result<Json>, random: seq<byte>, now: string) returns (h: Handled)
      requires Valid()
      modifies this
      ensures Valid()
      ensures h == Confirm(cfg, body, random, now).handled
      ensures body.Err? ==> records == old(records)
      ensures body.Ok? ==> records == old(records) + [Record(NewId("order", random), now, body.value)]
    {
      if body.Err? {
        return Handled(ErrorReply(500, ErrorText(body.message)), []);
      }
      var orderId := NewId("order", random);
      var record := Record(orderId, now, body.value);
      records := records + [record];
      h := Handled(Reply(200, JObj(map["ok" := JBool(true), "order_id" := JStr(orderId)])),
                   MailCalls(cfg, record, orderId));
    }
  }
}
