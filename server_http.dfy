/** The HTTP plumbing of the Node server (ALTURA_SERVER/server/server.js):
    JSON replies, the request-body reader with its size limit, the success
    classification of upstream HTTPS answers, the static-file path guard,
    content type and cache policy, and the routing of requests. */
module ServerHttp {
  import opened JsBuiltins
  import opened JsonValues
  import opened NodePath

  /** `sendJson(res, status, obj)`: a status and the JSON body. */
  datatype Reply = Reply(status: int, body: Json)

  /** `{ error: message }` with the given status. */
  function ErrorReply(status: int, message: string): (r: Reply)
    ensures r.status == status && Get(r.body, "error") == Some(JStr(message))
  {
    Reply(status, JObj(map["error" := JStr(message)]))
  }

  /** `String(e.message || e)` for an Error: its message, or "Error" when the
      message is empty. */
  function ErrorText(message: string): string {
    if message != "" then message else "Error"
  }

  // ---------------------------------------------------------------------------
  // readBody
  // ---------------------------------------------------------------------------

  /** The most characters a request body may accumulate. */
  const MaxBody: nat := 1000000

  /** The text of the first chunks, in arrival order. */
  function Concat(chunks: seq<string>): string {
    if chunks == [] then "" else Concat(chunks[..|chunks| - 1]) + chunks[|chunks| - 1]
  }

  lemma {:induction false} ConcatMonotone(chunks: seq<string>, n: nat, m: nat)
    requires n <= m <= |chunks|
    ensures |Concat(chunks[..n])| <= |Concat(chunks[..m])|
    decreases m - n
  {
    if n < m {
      ConcatMonotone(chunks, n, m - 1);
      assert chunks[..m][..m - 1] == chunks[..m - 1];
    }
  }

  /** How `readBody` settles on a complete body text: too large, null for an
      empty body, the parsed value, or "Invalid JSON". `parse` is JSON.parse,
      None where it throws. */
  function BodyOf(data: string, parse: string -> Option<Json>): (r: Result<Json>)
    ensures r == Err("Body too large") <==> |data| > MaxBody
    ensures r == Ok(JNull) <== data == ""
  {
    if |data| > MaxBody then Err("Body too large")
    else if data == "" then Ok(JNull)
    else match parse(data)
      case Some(j) => Ok(j)
      case None => Err("Invalid JSON")
  }

  /** `readBody(req)` over the chunks the request delivers: the text grows
      chunk by chunk, and the first chunk that takes it past the limit ends
      the read (the request is destroyed, so later chunks are never read).
      `consumed` is the number of chunks read. */
  method ReadBody(chunks: seq<string>, parse: string -> Option<Json>) returns (r: Result<Json>, consumed: nat)
    ensures consumed <= |chunks|
    ensures r == BodyOf(Concat(chunks), parse)
    ensures r == Err("Body too large") ==>
      |Concat(chunks[..consumed])| > MaxBody
      && forall n :: 0 <= n < consumed ==> |Concat(chunks[..n])| <= MaxBody
    ensures r != Err("Body too large") ==> consumed == |chunks|
  {
    var data := "";
    var i := 0;
    while i < |chunks|
      invariant 0 <= i <= |chunks|
      invariant data == Concat(chunks[..i])
      invariant |data| <= MaxBody
      invariant forall n :: 0 <= n <= i ==> |Concat(chunks[..n])| <= MaxBody
    {
      assert chunks[..i + 1][..i] == chunks[..i];
      data := data + chunks[i];
      i := i + 1;
      if |data| > MaxBody {
        ConcatMonotone(chunks, i, |chunks|);
        assert chunks[..|chunks|] == chunks;
        return Err("Body too large"), i;
      }
    }
    assert chunks[..i] == chunks;
    r := BodyOf(data, parse);
    consumed := i;
  }

  // ---------------------------------------------------------------------------
  // Upstream HTTPS answers
  // ---------------------------------------------------------------------------

  /** What an outbound HTTPS request came back with: a status, the body text
      and that text run through JSON.parse (None where it throws); or a
      request error with its message. */
  datatype Upstream =
    | Answer(status: int, text: string, parsed: Option<Json>)
    | Unreachable(message: string)

  /** `res.statusCode >= 200 && res.statusCode < 300`. */
  predicate IsSuccess(status: int) {
    200 <= status < 300
  }

  /** How `httpsJson` and `httpsForm` settle: an empty body reads as `{}`, a
      body that parses resolves to its value on success and rejects with the
      status otherwise, and a body that does not parse resolves to its raw
      text on success (a string value) and rejects otherwise. */
  function HttpsResult(u: Upstream): (r: Result<Json>)
    ensures r.Ok? <==> u.Answer? && IsSuccess(u.status)
    ensures r.Err? && u.Answer? ==> StartsWith(r.message, "HTTP " + IntToString(u.status) + ": ")
    ensures u.Answer? && IsSuccess(u.status) && u.text == "" ==> r == Ok(JObj(map[]))
    ensures u.Answer? && IsSuccess(u.status) && u.text != "" ==>
      r == Ok(if u.parsed.Some? then u.parsed.value else JStr(u.text))
  {
    match u
    case Unreachable(msg) => Err(msg)
    case Answer(status, text, parsed) =>
      var prefix := "HTTP " + IntToString(status) + ": ";
      var value := if text == "" then Some(JObj(map[])) else parsed;
      if value.Some? then
        if IsSuccess(status) then Ok(value.value)
        else Err(prefix + (if text == "" then "{}" else text))
      else if IsSuccess(status) then Ok(JStr(text))
      else Err(prefix + text)
  }

  /** How the PayPal token exchange settles: its body must parse (an empty
      body does not), then the status decides. */
  function TokenResult(u: Upstream): (r: Result<Json>)
    ensures r.Ok? <==> u.Answer? && IsSuccess(u.status) && u.text != "" && u.parsed.Some?
    ensures u.Answer? && (u.text == "" || u.parsed.None?) ==> r == Err("Bad token response: " + u.text)
  {
    match u
    case Unreachable(msg) => Err(msg)
    case Answer(status, text, parsed) =>
      if text == "" || parsed.None? then Err("Bad token response: " + text)
      else if IsSuccess(status) then Ok(parsed.value)
      else Err("HTTP " + IntToString(status) + ": " + text)
  }

  // ---------------------------------------------------------------------------
  // The static-file path guard
  // ---------------------------------------------------------------------------

  /** `safeJoin(base, target)`: the joined path, or None (null) unless it
      starts with `base` as a string. */
  function SafeJoin(base: string, target: string): (r: Option<string>)
    ensures r.Some? <==> StartsWith(JoinPath(base, target), base)
    ensures r.Some? ==> r.value == JoinPath(base, target)
  {
    var p := JoinPath(base, target);
    if StartsWith(p, base) then Some(p) else None
  }

  /** A guard that compares whole segments: the joined path must be the base
      itself or lie under "base/". */
  function SafeJoinWithin(base: string, target: string): (r: Option<string>)
    ensures r.Some? ==> r.value == JoinPath(base, target)
  {
    var p := JoinPath(base, target);
    if p == base || StartsWith(p, base + "/") then Some(p) else None
  }

  /** The segments that the resolution keeps begin with the base's. */
  predicate KeepsRoot(root: seq<string>, segs: seq<string>) {
    |segs| >= |root| && segs[..|root|] == root
  }

  /** The pieces of a path under "base/": the base's, then the rest's. */
  lemma UnderBaseSplit(root: seq<string>, p: string)
    requires root != [] && Clean(root)
    requires StartsWith(p, PathText(root) + "/")
    ensures Split(p) == [""] + root + Split(p[|PathText(root)| + 1..])
  {
    var base := PathText(root);
    var rest := p[|base| + 1..];
    assert p == p[..|base| + 1] + rest;
    assert p == base + "/" + rest;
    SplitConcat(base, rest);
    SplitPathText(root);
  }

  /** A path whose pieces are empty or plain and which lies under "base/"
      resolves to the base's segments followed by more. */
  lemma UnderBaseText(root: seq<string>, p: string)
    requires root != [] && Clean(root)
    requires EmptyOrPlain(Split(p))
    requires StartsWith(p, PathText(root) + "/")
    ensures KeepsRoot(root, Resolve([], Split(p)))
  {
    var rest := Split(p[|PathText(root)| + 1..]);
    UnderBaseSplit(root, p);
    TailNoParent([""] + root, rest);
    RootPieces(root);
    ResolveConcat([], [""] + root, rest);
    assert Resolve([], Split(p)) == Resolve(root, rest);
    ResolveNoParent(root, rest);
  }

  /** A normalised path under "base/" resolves to the base's segments
      followed by more. */
  lemma UnderBaseResolves(root: seq<string>, q: string)
    requires root != [] && Clean(root)
    requires StartsWith(NormalizeAbs(q), PathText(root) + "/")
    ensures KeepsRoot(root, Resolve([], Split(NormalizeAbs(q))))
  {
    NormalizedSegments(q);
    UnderBaseText(root, NormalizeAbs(q));
  }

  /** Joining a target without ".." pieces keeps the base's segments. */
  lemma JoinedKeepsRoot(root: seq<string>, target: string)
    requires root != [] && Clean(root)
    requires NoParent(Split(target))
    ensures KeepsRoot(root, Resolve([], Split(Joined(PathText(root), target))))
  {
    var base := PathText(root);
    ResolveBase(root);
    if target != "" {
      SplitConcat(base, target);
      ResolveConcat([], Split(base), Split(target));
      ResolveNoParent(root, Split(target));
    }
  }

  /** The text of segments that begin with the base's is the base itself or
      lies under "base/". */
  lemma PathTextUnder(root: seq<string>, kept: seq<string>)
    requires root != [] && KeepsRoot(root, kept)
    ensures PathText(kept) == PathText(root) || StartsWith(PathText(kept), PathText(root) + "/")
  {
    var tail := kept[|root|..];
    assert kept == root + tail;
    if tail != [] {
      JoinSlashConcat(root, tail);
      var front := PathText(root) + "/";
      assert PathText(kept) == front + JoinSlash(tail);
      assert PathText(kept)[..|front|] == front;
    } else {
      assert kept == root;
    }
  }

  /** A request path without ".." pieces joins under a normalised base: the
      joined path is the base itself or lies under "base/". So the guard
      never refuses such a path, and the segment-wise guard agrees with it. */
  lemma PlainTargetsJoinUnderRoot(root: seq<string>, target: string)
    requires root != [] && Clean(root)
    requires NoParent(Split(target))
    ensures var p := JoinPath(PathText(root), target);
      p == PathText(root) || StartsWith(p, PathText(root) + "/")
    ensures SafeJoin(PathText(root), target).Some?
    ensures SafeJoinWithin(PathText(root), target) == SafeJoin(PathText(root), target)
  {
    var base := PathText(root);
    var joined := Joined(base, target);
    var kept := Resolve([], Split(joined));
    JoinedKeepsRoot(root, target);
    PathTextUnder(root, kept);
    var p := JoinPath(base, target);
    assert p == PathText(kept) || p == PathText(kept) + "/";
    assert p == base || StartsWith(p, base + "/");
    assert StartsWith(p, base);
  }

  lemma SiblingText(x: string, z: string)
    ensures Joined("/" + x, "/../" + z) == "" + "/" + (x + "/" + ("" + "/" + (".." + "/" + z)))
  {
    assert "/../" + z == "" + "/" + (".." + "/" + z);
  }

  lemma SiblingPieces(x: string, z: string)
    requires '/' !in x && '/' !in z
    ensures Split(Joined("/" + x, "/../" + z)) == ["", x, "", "..", z]
  {
    var s3 := ".." + "/" + z;
    var s2 := "" + "/" + s3;
    var s1 := x + "/" + s2;
    var s0 := "" + "/" + s1;
    SplitNoSlash(z);
    SplitCons("..", z);
    SplitCons("", s3);
    SplitCons(x, s2);
    SplitCons("", s1);
    SiblingText(x, z);
  }

  lemma SiblingResolves(x: string, z: string)
    requires PlainSegment(x) && PlainSegment(z)
    ensures Resolve([], ["", x, "", "..", z]) == [z]
  {
    var pieces := ["", x, "", "..", z];
    assert pieces[..4] == ["", x, "", ".."];
    assert pieces[..4][..3] == ["", x, ""];
    assert pieces[..4][..3][..2] == ["", x];
    assert pieces[..4][..3][..2][..1] == [""];
    assert pieces[..4][..3][..2][..1][..0] == [];
    assert Resolve([], []) == [];
    assert Resolve([], [""]) == [];
    assert Resolve([], ["", x]) == [x];
    assert Resolve([], ["", x, ""]) == [x];
    assert Resolve([], ["", x, "", ".."]) == [];
  }

  /** The guard compares text, not segments: for a base directory "/x", the
      request path "/../xy" joins to "/xy", a sibling of the base whose name
      merely starts with the base's; the string prefix test lets it through
      and the segment-wise guard refuses it. With the base "/site", the
      request path "/../site-old" reaches "/site-old". */
  lemma SafeJoinAdmitsSibling(x: string, y: string)
    requires PlainSegment(x) && '/' !in x
    requires y != [] && '/' !in y
    ensures SafeJoin("/" + x, "/../" + x + y) == Some("/" + x + y)
    ensures SafeJoinWithin("/" + x, "/../" + x + y) == None
  {
    var z := x + y;
    assert "/../" + x + y == "/../" + z;
    assert "/" + x + y == "/" + z;
    SlashlessConcat(x, y);
    assert z[..|x|] == x;
    assert |z| >= 2 && z[..1] == x[..1];
    assert PlainSegment(z);
    SiblingPieces(x, z);
    SiblingResolves(x, z);
    var joined := Joined("/" + x, "/../" + z);
    assert joined[|joined| - 1] == z[|z| - 1] != '/';
    assert JoinPath("/" + x, "/../" + z) == "/" + z;
    var p := "/" + z;
    assert p[..|"/" + x|] == "/" + x;
    assert p[|"/" + x|] == y[0];
  }

  /** Whatever the segment-wise guard admits under a normalised base has the
      base's segments in front, whatever ".." the request path holds. */
  lemma SafeJoinWithinInside(root: seq<string>, target: string)
    requires root != [] && Clean(root)
    requires SafeJoinWithin(PathText(root), target).Some?
    ensures KeepsRoot(root, Resolve([], Split(SafeJoinWithin(PathText(root), target).value)))
  {
    var base := PathText(root);
    var p := JoinPath(base, target);
    ResolveBase(root);
    if p != base {
      UnderBaseResolves(root, Joined(base, target));
    }
  }

  // ---------------------------------------------------------------------------
  // Static files
  // ---------------------------------------------------------------------------

  /** The MIME table. */
  const Mime: map<string, string> := map[
    ".html" := "text/html; charset=utf-8",
    ".css" := "text/css; charset=utf-8",
    ".js" := "application/javascript; charset=utf-8",
    ".json" := "application/json; charset=utf-8",
    ".png" := "image/png",
    ".jpg" := "image/jpeg",
    ".jpeg" := "image/jpeg",
    ".webp" := "image/webp",
    ".svg" := "image/svg+xml"]

  const ImmutableCache := "public, max-age=31536000, immutable"

  /** The page served for a directory request. */
  const IndexPage := "index" + "." + "html"

  /** What `serveStatic` answers. */
  datatype StaticReply =
    | BadRequest
    | NotFound
    | File(path: string, contentType: string, cacheControl: string)

  /** The request path after the trailing-slash rule. */
  function StaticPath(pathname: string): (p: string)
    ensures EndsWith(pathname, "/") ==> p == pathname + IndexPage
    ensures !EndsWith(pathname, "/") ==> p == pathname
  {
    if EndsWith(pathname, "/") then pathname + IndexPage else pathname
  }

  /** `serveStatic` for a parsed request path, with `isFile` standing for the
      `fs.stat` answer on the joined path. */
  function ServeStatic(siteDir: string, pathname: string, isFile: string -> bool): (r: StaticReply)
    ensures r == BadRequest <==> SafeJoin(siteDir, StaticPath(pathname)).None?
    ensures r.File? ==> r.path == JoinPath(siteDir, StaticPath(pathname)) && isFile(r.path)
    ensures SafeJoin(siteDir, StaticPath(pathname)).Some? ==>
      (r.File? <==> isFile(SafeJoin(siteDir, StaticPath(pathname)).value))
      && (!r.File? ==> r == NotFound)
    ensures r.File? ==>
      var ext := ToLower(ExtName(r.path));
      r.contentType == (if ext in Mime then Mime[ext] else "application/octet-stream")
      && r.cacheControl == (if ext == ".html" then "no-cache" else ImmutableCache)
  {
    match SafeJoin(siteDir, StaticPath(pathname))
    case None => BadRequest
    case Some(filePath) =>
      if !isFile(filePath) then NotFound
      else
        var ext := ToLower(ExtName(filePath));
        File(filePath,
          if ext in Mime then Mime[ext] else "application/octet-stream",
          if ext == ".html" then "no-cache" else ImmutableCache)
  }

  /** The extension of a path whose last segment is "index.html". */
  lemma IndexExtension(p: string)
    requires BaseName(p) == IndexPage
    ensures ExtName(p) == ".html"
  {
    ExtNameOf(p);
    assert '.' !in "html" && "index" != [];
    ExtensionOf("index", "html");
    DotHtml();
  }

  lemma DotHtml()
    ensures "." + "html" == ".html"
  {
  }

  lemma HtmlLower()
    ensures ToLower(".html") == ".html"
  {
    assert ".html"[1..] == "html";
    assert "html"[1..] == "tml";
    assert "tml"[1..] == "ml";
    assert "ml"[1..] == "l";
  }

  /** A file whose last segment is "index.html" is served as HTML. */
  lemma IndexContentType(path: string)
    requires BaseName(path) == IndexPage
    ensures ToLower(ExtName(path)) == ".html"
    ensures Mime[".html"] == "text/html; charset=utf-8"
  {
    IndexExtension(path);
    HtmlLower();
  }

  /** A request path ending in "/" joins to a path whose last segment is
      "index.html". */
  lemma DirectoryJoinsIndex(siteDir: string, pathname: string)
    requires EndsWith(pathname, "/")
    ensures BaseName(JoinPath(siteDir, StaticPath(pathname))) == IndexPage
  {
    var dir := siteDir + "/" + pathname[..|pathname| - 1];
    assert pathname == pathname[..|pathname| - 1] + "/";
    assert Joined(siteDir, StaticPath(pathname)) == dir + "/" + IndexPage;
    NormalizeKeepsName(dir, IndexPage);
  }

  /** A directory request is served from its index page, which is never
      cached. */
  lemma DirectoryServesIndex(siteDir: string, pathname: string, isFile: string -> bool)
    requires EndsWith(pathname, "/")
    ensures ServeStatic(siteDir, pathname, isFile).File? ==>
      ServeStatic(siteDir, pathname, isFile).contentType == "text/html; charset=utf-8"
      && ServeStatic(siteDir, pathname, isFile).cacheControl == "no-cache"
  {
    var r := ServeStatic(siteDir, pathname, isFile);
    if r.File? {
      DirectoryJoinsIndex(siteDir, pathname);
      IndexContentType(r.path);
    }
  }

  // ---------------------------------------------------------------------------
  // Routing
  // ---------------------------------------------------------------------------

  /** Where the server sends a request: one of the API handlers, the API's
      404 fallback, or the static files. */
  datatype Route =
    | Health
    | Products
    | StripeCheckout
    | PaypalCheckout
    | OrderConfirm
    | WhatsappSend
    | ApiNotFound
    | Static

  /** The (method, path) pairs `handleApi` answers. */
  const ApiTable: map<(string, string), Route> := map[
    ("GET", "/api/health") := Health,
    ("GET", "/api/products") := Products,
    ("POST", "/api/checkout/stripe") := StripeCheckout,
    ("POST", "/api/checkout/paypal") := PaypalCheckout,
    ("POST", "/api/order/confirm") := OrderConfirm,
    ("POST", "/api/whatsapp/send") := WhatsappSend]

  /** The server's dispatch: a raw URL starting with "/api/" goes to
      `handleApi`, which matches the method (`verb`) and the parsed path in order and
      falls back to 404; anything else is a static file. */
  function RouteOf(verb: string, rawUrl: string, pathname: string): (r: Route)
    ensures r == Static <==> !StartsWith(rawUrl, "/api/")
    ensures r == ApiNotFound <==> StartsWith(rawUrl, "/api/") && (verb, pathname) !in ApiTable
    ensures r != Static && r != ApiNotFound ==> ApiTable[(verb, pathname)] == r
  {
    if !StartsWith(rawUrl, "/api/") then Static
    else if verb == "GET" && pathname == "/api/health" then Health
    else if verb == "GET" && pathname == "/api/products" then Products
    else if verb == "POST" && pathname == "/api/checkout/stripe" then StripeCheckout
    else if verb == "POST" && pathname == "/api/checkout/paypal" then PaypalCheckout
    else if verb == "POST" && pathname == "/api/order/confirm" then OrderConfirm
    else if verb == "POST" && pathname == "/api/whatsapp/send" then WhatsappSend
    else ApiNotFound
  }

  /** The fallback answer of `handleApi`. */
  function NotFoundReply(): (r: Reply)
    ensures r.status == 404 && Get(r.body, "error") == Some(JStr("Not found"))
  {
    ErrorReply(404, "Not found")
  }
}
