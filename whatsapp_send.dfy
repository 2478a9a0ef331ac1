/** The WhatsApp endpoint (`POST /api/whatsapp/send` in
    ALTURA_SERVER/server/server.js): a text message sent through the Meta
    Cloud API. */
module WhatsappSend {
  import opened JsBuiltins
  import opened JsonValues
  import opened ServerHttp
  import opened ServerConfig

  /** The messages endpoint of the configured phone number. */
  function MessagesUrl(cfg: Config): string {
    "https://graph.facebook.com/v20.0/" + cfg.waPhoneNumberId + "/messages"
  }

  /** The message: a text to the given recipient. */
  function MessageJson(to: Json, text: Json): Json {
    JObj(map[
      "messaging_product" := JStr("whatsapp"),
      "to" := to,
      "type" := JStr("text"),
      "text" := JObj(map["body" := text])])
  }

  /** The endpoint, given the body `readBody` settled on and the upstream
      `transport`: 200 with the API's answer, or the error. */
  function WhatsappHandler(cfg: Config, body: Result<Json>, transport: Outbound -> Upstream): Handled {
    match body
    case Err(m) => Handled(ErrorReply(500, ErrorText(m)), [])
    case Ok(raw) =>
      if cfg.waToken == "" || cfg.waPhoneNumberId == "" then Handled(ErrorReply(400, "WhatsApp not configured"), [])
      else
        var b := Fields(raw);
        var to := Get(b, "to");
        var text := Get(b, "text");
        if !Truthy(to) || !Truthy(text) then Handled(ErrorReply(400, "Missing to/text"), [])
        else
          var call := Outbound(MessagesUrl(cfg), Bearer(cfg.waToken), JsonBody(MessageJson(to.value, text.value)));
          match HttpsResult(transport(call))
          case Err(m) => Handled(ErrorReply(500, ErrorText(m)), [call])
          case Ok(resp) => Handled(Reply(200, JObj(map["ok" := JBool(true), "resp" := resp])), [call])
  }

  /** The configuration is checked before the request's fields; a message
      is sent only with both a truthy recipient and a truthy text, exactly
      once, to the configured number with its token, carrying them
      unchanged; the reply is 200 exactly when the API answered 2xx. */
  lemma WhatsappSpec(cfg: Config, body: Result<Json>, transport: Outbound -> Upstream)
    ensures body.Ok? && (cfg.waToken == "" || cfg.waPhoneNumberId == "") ==>
      WhatsappHandler(cfg, body, transport) == Handled(ErrorReply(400, "WhatsApp not configured"), [])
    ensures var h := WhatsappHandler(cfg, body, transport);
      h.calls != [] <==> (body.Ok? && cfg.waToken != "" && cfg.waPhoneNumberId != ""
        && Truthy(Get(body.value, "to")) && Truthy(Get(body.value, "text")))
    ensures var h := WhatsappHandler(cfg, body, transport);
      h.calls != [] ==> (|h.calls| == 1
        && h.calls[0] == Outbound(MessagesUrl(cfg), Bearer(cfg.waToken),
             JsonBody(MessageJson(Get(body.value, "to").value, Get(body.value, "text").value)))
        && (h.reply.status == 200 <==> transport(h.calls[0]).Answer? && IsSuccess(transport(h.calls[0]).status)))
  {
  }
}
