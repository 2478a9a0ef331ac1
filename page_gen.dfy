/** The static product-page generator ALTURA_DOCS/docs/generate_pages.js:
    one HTML page per language and catalogue product, written to
    `<root>/<lang>/p/<slug>/index.html`. */
module PageGen {
  import opened JsBuiltins
  import opened JsonValues
  import opened NodePath
  import opened Locale
  import opened HtmlEscape

  // ---------------------------------------------------------------------------
  // Reading back what the generator writes
  // ---------------------------------------------------------------------------

  /** The text of `s` before its first `c`. */
  function TakeUntil(s: string, c: char): (r: string)
    ensures c !in r && |r| <= |s| && s[..|r|] == r
  {
    if s == [] || s[0] == c then "" else [s[0]] + TakeUntil(s[1..], c)
  }

  /** Text free of `c` followed by `c` (or by nothing) is read whole. */
  lemma {:induction false} TakeUntilStops(a: string, c: char, b: string)
    requires c !in a && (b == [] || b[0] == c)
    ensures TakeUntil(a + b, c) == a
    decreases |a|
  {
    if a == [] {
      assert a + b == b;
    } else {
      assert (a + b)[1..] == a[1..] + b;
      TakeUntilStops(a[1..], c, b);
      assert [a[0]] + a[1..] == a;
    }
  }

  // ---------------------------------------------------------------------------
  // layout
  // ---------------------------------------------------------------------------

  /** The `lang` attribute: "fr" exactly for French pages, "en" otherwise. */
  function LangAttr(lang: string): (a: string)
    ensures a == "fr" || a == "en"
    ensures a == "fr" <==> lang == "fr"
  {
    if lang == "fr" then "fr" else "en"
  }

  // The fixed texts of the layout. Each is written with its first character
  // apart: that character is what tells the readers below where a part ends.

  const DocOpen := "<!doctype html>\n<html lang=\""
  const HeadRest := "\"" + ">\n<head>\n  <meta charset=\"utf-8\"/>\n"
    + "  <meta name=\"viewport\" content=\"width=device-width, initial-scale=1\"/>\n  <title>"
  const TitleClose := "<" + "/title>\n  "
  const MetaOpen := "<" + "meta name=\"description\" content=\""
  const MetaClose := "\"" + "/>"
  const CloseHead := "\n" + "  <link rel=\"stylesheet\" href=\"/assets/styles.css\"/>\n"
    + "  <script defer src=\"/assets/app.js\"></script>\n</head>\n<body data-lang=\""

  /** Everything before the escaped title. */
  function HeadOpen(langAttr: string): string {
    DocOpen + langAttr + HeadRest
  }

  /** The description meta tag: present only for a truthy description, whose
      text is `String(desc)` with its double quotes escaped. */
  function DescMeta(desc: Value): string {
    if Truthy(desc) then MetaOpen + EscapeAttr(JsString(desc)) + MetaClose else ""
  }

  /** Everything after the description meta tag. */
  function PageClose(lang: string, body: string): string {
    CloseHead + lang + "\">\n" + body + "\n</body>\n</html>"
  }

  /** `layout({lang, title, body, desc})`. */
  function Layout(lang: string, title: string, body: string, desc: Value): string {
    HeadOpen(LangAttr(lang)) + EscapeHtml(title) + TitleClose + DescMeta(desc) + PageClose(lang, body)
  }

  /** The `lang` attribute of a page. */
  function HtmlLang(html: string): Option<string> {
    if StartsWith(html, DocOpen) then Some(TakeUntil(html[|DocOpen|..], '"')) else None
  }

  /** The text of a page's title, its entities read back. */
  function TitleOf(html: string): Option<string> {
    match HtmlLang(html)
    case None => None
    case Some(a) =>
      if StartsWith(html, HeadOpen(a)) then Some(UnescapeHtml(TakeUntil(html[|HeadOpen(a)|..], '<')))
      else None
  }

  /** The content of a description meta tag at the start of `t`, its quote
      entities read back. */
  function ReadMeta(t: string): Option<string> {
    if StartsWith(t, MetaOpen) then Some(UnescapeAttr(TakeUntil(t[|MetaOpen|..], '"'))) else None
  }

  /** The description meta tag right after a page's title. */
  function DescriptionOf(html: string): Option<string> {
    match HtmlLang(html)
    case None => None
    case Some(a) => DescriptionAfter(html, HeadOpen(a))
  }

  /** The description meta tag after a given head and the title. */
  function DescriptionAfter(html: string, head: string): Option<string> {
    if !StartsWith(html, head) then None
    else
      var t := TakeUntil(html[|head|..], '<');
      var at := |head| + |t| + |TitleClose|;
      if at <= |html| then ReadMeta(html[at..]) else None
  }

  /** What the readers rely on about the fixed texts. */
  lemma FixedTexts()
    ensures HeadRest != [] && HeadRest[0] == '"'
    ensures TitleClose != [] && TitleClose[0] == '<'
    ensures MetaOpen != [] && MetaOpen[0] == '<'
    ensures MetaClose != [] && MetaClose[0] == '"'
    ensures CloseHead != [] && CloseHead[0] == '\n'
  {
  }

  lemma AfterPrefix(d: string, x: string)
    ensures StartsWith(d + x, d) && (d + x)[|d|..] == x
  {
    assert (d + x)[..|d|] == d;
  }

  lemma Regroup(a: string, b: string, c: string, d: string)
    ensures a + b + c + d == a + (b + (c + d))
  {
  }

  lemma HeadOpenStarts(a: string, rest: string)
    requires '"' !in a
    ensures StartsWith(HeadOpen(a) + rest, DocOpen)
    ensures TakeUntil((HeadOpen(a) + rest)[|DocOpen|..], '"') == a
  {
    FixedTexts();
    Regroup(DocOpen, a, HeadRest, rest);
    AfterPrefix(DocOpen, a + (HeadRest + rest));
    TakeUntilStops(a, '"', HeadRest + rest);
  }

  /** A head with escaped title `e` followed by `rest` reads back its
      language attribute, its title and the meta tag `rest` starts with. */
  lemma ReadHead(html: string, a: string, e: string, rest: string)
    requires '"' !in a && '<' !in e
    requires html == HeadOpen(a) + (e + (TitleClose + rest))
    ensures HtmlLang(html) == Some(a)
    ensures TitleOf(html) == Some(UnescapeHtml(e))
    ensures DescriptionOf(html) == ReadMeta(rest)
  {
    HeadOpenStarts(a, e + (TitleClose + rest));
    ReadTitleAt(html, a, e, rest);
    ReadTitleOf(html, a, e);
    ReadDescriptionOf(html, a, e, rest);
  }

  lemma ReadTitleOf(html: string, a: string, e: string)
    requires HtmlLang(html) == Some(a)
    requires StartsWith(html, HeadOpen(a)) && TakeUntil(html[|HeadOpen(a)|..], '<') == e
    ensures TitleOf(html) == Some(UnescapeHtml(e))
  {
  }

  lemma ReadDescriptionOf(html: string, a: string, e: string, rest: string)
    requires HtmlLang(html) == Some(a)
    requires StartsWith(html, HeadOpen(a)) && TakeUntil(html[|HeadOpen(a)|..], '<') == e
    requires |HeadOpen(a)| + |e| + |TitleClose| <= |html|
    requires html[|HeadOpen(a)| + |e| + |TitleClose|..] == rest
    ensures DescriptionOf(html) == ReadMeta(rest)
  {
    ReadDescriptionAfter(html, HeadOpen(a), e, rest);
  }

  lemma ReadDescriptionAfter(html: string, head: string, e: string, rest: string)
    requires StartsWith(html, head) && TakeUntil(html[|head|..], '<') == e
    requires |head| + |e| + |TitleClose| <= |html|
    requires html[|head| + |e| + |TitleClose|..] == rest
    ensures DescriptionAfter(html, head) == ReadMeta(rest)
  {
  }

  lemma ReadTitleAt(html: string, a: string, e: string, rest: string)
    requires '"' !in a && '<' !in e
    requires html == HeadOpen(a) + (e + (TitleClose + rest))
    requires HtmlLang(html) == Some(a)
    ensures StartsWith(html, HeadOpen(a))
    ensures TakeUntil(html[|HeadOpen(a)|..], '<') == e
    ensures |HeadOpen(a)| + |e| + |TitleClose| <= |html|
    ensures html[|HeadOpen(a)| + |e| + |TitleClose|..] == rest
  {
    FixedTexts();
    var after := TitleClose + rest;
    AfterPrefix(HeadOpen(a), e + after);
    TakeUntilStops(e, '<', after);
    Regroup(HeadOpen(a), e, TitleClose, rest);
    AfterPrefix(HeadOpen(a) + e + TitleClose, rest);
  }

  /** The part of a page after its description: it never reads as a meta tag. */
  lemma PageCloseIsNoMeta(lang: string, body: string)
    ensures ReadMeta(PageClose(lang, body)) == None
  {
    assert PageClose(lang, body)[0] == CloseHead[0] == '\n';
    assert MetaOpen[0] == '<';
  }

  /** A description meta tag reads back as the description, when that has
      no "&". */
  lemma ReadDescMeta(desc: Value, rest: string)
    requires Truthy(desc)
    ensures ReadMeta(DescMeta(desc) + rest).Some?
    ensures '&' !in JsString(desc) ==> ReadMeta(DescMeta(desc) + rest) == Some(JsString(desc))
  {
    var v := EscapeAttr(JsString(desc));
    assert DescMeta(desc) == MetaOpen + v + MetaClose;
    ReadMetaOf(v, rest);
    if '&' !in JsString(desc) {
      UnescapeEscapeAttr(JsString(desc));
    }
  }

  /** A meta tag holding an attribute value without quotes reads back as
      that value, its entities read back. */
  lemma ReadMetaOf(v: string, rest: string)
    requires '"' !in v
    ensures ReadMeta(MetaOpen + v + MetaClose + rest) == Some(UnescapeAttr(v))
  {
    var t := MetaOpen + v + MetaClose + rest;
    assert t == MetaOpen + (v + (MetaClose + rest));
    AfterPrefix(MetaOpen, v + (MetaClose + rest));
    FixedTexts();
    TakeUntilStops(v, '"', MetaClose + rest);
  }

  lemma NoDescMeta(desc: Value, lang: string, body: string)
    requires !Truthy(desc)
    ensures ReadMeta(DescMeta(desc) + PageClose(lang, body)) == None
  {
    assert DescMeta(desc) + PageClose(lang, body) == PageClose(lang, body);
    PageCloseIsNoMeta(lang, body);
  }

  /** The layout as the head, the escaped title and what follows it. */
  lemma LayoutParts(lang: string, title: string, body: string, desc: Value)
    ensures Layout(lang, title, body, desc)
      == HeadOpen(LangAttr(lang)) + (EscapeHtml(title) + (TitleClose + (DescMeta(desc) + PageClose(lang, body))))
  {
    var rest := DescMeta(desc) + PageClose(lang, body);
    var front := HeadOpen(LangAttr(lang)) + EscapeHtml(title) + TitleClose;
    assert front + DescMeta(desc) + PageClose(lang, body) == front + rest;
    Regroup(HeadOpen(LangAttr(lang)), EscapeHtml(title), TitleClose, rest);
  }

  /** A page reads back as it was laid out: its language attribute, its
      title, and a description exactly when the description was truthy,
      which is the description's text whenever that has no "&". */
  lemma LayoutReadsBack(lang: string, title: string, body: string, desc: Value)
    ensures HtmlLang(Layout(lang, title, body, desc)) == Some(LangAttr(lang))
    ensures TitleOf(Layout(lang, title, body, desc)) == Some(title)
    ensures DescriptionOf(Layout(lang, title, body, desc)).Some? <==> Truthy(desc)
    ensures Truthy(desc) && '&' !in JsString(desc) ==>
      DescriptionOf(Layout(lang, title, body, desc)) == Some(JsString(desc))
  {
    var a := LangAttr(lang);
    var e := EscapeHtml(title);
    var rest := DescMeta(desc) + PageClose(lang, body);
    LayoutParts(lang, title, body, desc);
    ReadHead(Layout(lang, title, body, desc), a, e, rest);
    UnescapeEscapeHtml(title);
    if Truthy(desc) {
      ReadDescMeta(desc, PageClose(lang, body));
    } else {
      NoDescMeta(desc, lang, body);
    }
  }

  // ---------------------------------------------------------------------------
  // The language switch and the header
  // ---------------------------------------------------------------------------

  /** The label of the switch: the other language's code. */
  function SwitchLabel(lang: string): string {
    if lang == "fr" then "EN" else "FR"
  }

  /** The prefix the switch leads to: the other language's root. */
  function SwitchTarget(lang: string): string {
    if lang == "fr" then "/en" else "/fr"
  }

  /** `${langTarget}${p.path_root || '/'}`. */
  function SwitchHref(lang: string, pathRoot: Value): string {
    SwitchTarget(lang) + JsString(Or(pathRoot, Some(JStr("/"))))
  }

  /** The switch of a French page leads to English and is labelled EN, that
      of an English page leads to French and is labelled FR; the link is the
      other language's prefix followed by the product's path root, or "/"
      when that is falsy. */
  lemma SwitchLeadsToOtherLanguage(lang: string, pathRoot: Value)
    requires lang == "en" || lang == "fr"
    ensures LangFromPath(SwitchHref(lang, pathRoot)) != lang
    ensures HasLangPrefix(SwitchHref(lang, pathRoot))
    ensures "/" + ToLower(SwitchLabel(lang)) == SwitchTarget(lang)
    ensures SwitchHref(lang, pathRoot)[3..]
      == (if Truthy(pathRoot) then JsString(pathRoot) else "/")
  {
    var h := SwitchHref(lang, pathRoot);
    assert h[..3] == SwitchTarget(lang);
    assert ToLower(SwitchLabel(lang)) == [LowerChar(SwitchLabel(lang)[0]), LowerChar(SwitchLabel(lang)[1])];
  }

  /** The page header: brand, shop links, the language switch and the cart
      link. */
  function Header(lang: string, pathRoot: Value): string {
    var fr := lang == "fr";
    "\n<header class=\"header\">\n  <div class=\"container inner\">\n"
    + "    <a class=\"brand\" href=\"/" + lang + "/\">ALTURA</a>\n    <nav class=\"nav\">\n"
    + "      <a href=\"/" + lang + "/women/\">Shop " + (if fr then "Femme" else "Women") + "</a>\n"
    + "      <a href=\"/" + lang + "/men/\">Shop " + (if fr then "Homme" else "Men") + "</a>\n"
    + "      <a class=\"pill\" href=\"" + SwitchHref(lang, pathRoot) + "\" data-lang-toggle>"
    + SwitchLabel(lang) + "</a>\n"
    + "      <a class=\"pill\" href=\"/" + lang + "/checkout/\" data-cart-link>Cart (<span data-cart-count>0</span>)</a>\n"
    + "    </nav>\n  </div>\n</header>\n"
  }

  /** The product card at the top of the page: picture, name and tagline. */
  function ProductCard(code: Value, name: Value, tagline: Value): string {
    "<img alt=\"" + EscapeAttr(JsString(name)) + "\" src=\"/assets/products/" + JsString(code) + ".jpg\" />\n"
    + "<h1 class=\"h1\">" + EscapeHtml(JsString(name)) + "</h1>\n"
    + "<div class=\"muted\" style=\"font-size:18px\">" + EscapeHtml(JsString(tagline)) + "</div>\n"
  }

  // ---------------------------------------------------------------------------
  // The size picker
  // ---------------------------------------------------------------------------

  const ButtonOpen := "<" + "button type=\"button\" class=\"size\" data-size=\""
  const ButtonMid := "\"" + ">"
  const ButtonClose := "</button>"

  /** One size button; `${s}` is `String(s)`. */
  function SizeButton(s: Json): string {
    ButtonOpen + ToStr(s) + ButtonMid + ToStr(s) + ButtonClose
  }

  /** `sizes.map(button).join('')`. */
  function Buttons(sizes: seq<Json>): string {
    if sizes == [] then "" else SizeButton(sizes[0]) + Buttons(sizes[1..])
  }

  /** The sizes as they are written on the buttons, in catalogue order. */
  function SizeLabels(sizes: seq<Json>): (labels: seq<string>)
    ensures |labels| == |sizes|
    ensures forall k :: 0 <= k < |sizes| ==> labels[k] == ToStr(sizes[k])
  {
    if sizes == [] then [] else [ToStr(sizes[0])] + SizeLabels(sizes[1..])
  }

  /** `.length` of a JSON value: arrays and strings have one; an object
      only through a "length" key. */
  function LengthOf(v: Json): Value {
    match v
    case JArr(a) => Some(JNum(|a|))
    case JStr(s) => Some(JNum(|s|))
    case JObj(_) => Get(v, "length")
    case _ => None
  }

  function PickerOpen(lang: string, code: Value): (t: string)
    ensures t != []
  {
    "\n      <div class=\"sp\"></div>\n      <div class=\"kicker\">"
    + (if lang == "fr" then "Tailles disponibles" else "Available sizes")
    + "</div>\n      <div class=\"sizes\" data-size-picker data-code=\"" + JsString(code) + "\">\n        "
  }

  const PickerClose := "\n" + "      </div>\n      "

  /** `p.sizes && p.sizes.length ? picker : ''`; only an array can be
      mapped, so any other value with a truthy length throws. */
  function SizePicker(lang: string, code: Value, sizes: Value): Result<string> {
    Picker(PickerOpen(lang, code), sizes)
  }

  /** The picker after a given opening text. */
  function Picker(open: string, sizes: Value): Result<string> {
    if !(Truthy(sizes) && Truthy(LengthOf(sizes.value))) then Ok("")
    else if sizes.value.JArr? then Ok(open + Buttons(sizes.value.elems) + PickerClose)
    else Err("p.sizes.map is not a function")
  }

  /** Reads the `data-size` values of a run of size buttons. */
  function ReadButtons(t: string): seq<string>
    decreases |t|
  {
    if !StartsWith(t, ButtonOpen) then []
    else
      var v := TakeUntil(t[|ButtonOpen|..], '"');
      var n := |ButtonOpen| + 2 * |v| + |ButtonMid| + |ButtonClose|;
      if n <= |t| then [v] + ReadButtons(t[n..]) else [v]
  }

  /** The buttons read back as the sizes in catalogue order, one each, as
      long as no size's text holds a double quote. */
  lemma ButtonTexts()
    ensures ButtonOpen != [] && ButtonOpen[0] == '<'
    ensures ButtonMid != [] && ButtonMid[0] == '"'
    ensures PickerClose != [] && PickerClose[0] == '\n'
  {
  }

  /** One button followed by `tail` reads as its size, then `tail`. */
  lemma ReadOneButton(s: Json, tail: string)
    requires '"' !in ToStr(s)
    ensures var t := SizeButton(s) + tail;
      var v := ToStr(s);
      StartsWith(t, ButtonOpen) && TakeUntil(t[|ButtonOpen|..], '"') == v
      && |ButtonOpen| + 2 * |v| + |ButtonMid| + |ButtonClose| <= |t|
      && t[|ButtonOpen| + 2 * |v| + |ButtonMid| + |ButtonClose|..] == tail
  {
    ButtonTexts();
    var v := ToStr(s);
    var t := SizeButton(s) + tail;
    var more := ButtonMid + v + ButtonClose + tail;
    assert t == ButtonOpen + (v + more);
    AfterPrefix(ButtonOpen, v + more);
    TakeUntilStops(v, '"', more);
    AfterPrefix(SizeButton(s), tail);
  }

  /** Text that does not open with "<" holds no more buttons. */
  lemma ReadButtonsEnd(rest: string)
    requires rest == [] || rest[0] != '<'
    ensures ReadButtons(rest) == []
  {
    ButtonTexts();
  }

  lemma ReadButtonsStep(s: Json, tail: string)
    requires '"' !in ToStr(s)
    ensures ReadButtons(SizeButton(s) + tail) == [ToStr(s)] + ReadButtons(tail)
  {
    ReadOneButton(s, tail);
  }

  lemma ButtonsCons(sizes: seq<Json>, rest: string)
    requires sizes != []
    ensures Buttons(sizes) + rest == SizeButton(sizes[0]) + (Buttons(sizes[1..]) + rest)
  {
    assert Buttons(sizes) == SizeButton(sizes[0]) + Buttons(sizes[1..]);
    Regroup3(SizeButton(sizes[0]), Buttons(sizes[1..]), rest);
  }

  lemma {:induction false} ReadButtonsBack(sizes: seq<Json>, rest: string)
    requires forall k :: 0 <= k < |sizes| ==> '"' !in ToStr(sizes[k])
    requires rest == [] || rest[0] != '<'
    ensures ReadButtons(Buttons(sizes) + rest) == SizeLabels(sizes)
    decreases |sizes|
  {
    if sizes == [] {
      assert Buttons(sizes) == "";
      assert "" + rest == rest;
      ReadButtonsEnd(rest);
    } else {
      ButtonsCons(sizes, rest);
      ReadButtonsStep(sizes[0], Buttons(sizes[1..]) + rest);
      assert forall k :: 0 <= k < |sizes[1..]| ==> sizes[1..][k] == sizes[k + 1];
      ReadButtonsBack(sizes[1..], rest);
    }
  }

  /** The picker is left out exactly when the sizes are falsy or have a
      falsy length; an array's picker carries its sizes in catalogue order
      after the opening text, and an empty array gives no picker. */
  lemma PickerSpec(open: string, sizes: Value)
    ensures Picker(open, sizes) == Ok("") <==> !(Truthy(sizes) && Truthy(LengthOf(sizes.value)))
    ensures sizes == Some(JArr([])) ==> Picker(open, sizes) == Ok("")
    ensures sizes.Some? && sizes.value.JArr? && sizes.value.elems != []
      && (forall k :: 0 <= k < |sizes.value.elems| ==> '"' !in ToStr(sizes.value.elems[k]))
      ==> var picker := Picker(open, sizes);
        picker.Ok? && StartsWith(picker.value, open)
        && ReadButtons(picker.value[|open|..]) == SizeLabels(sizes.value.elems)
  {
    PickerOmitted(open, sizes);
    if sizes.Some? && sizes.value.JArr? && sizes.value.elems != []
      && forall k :: 0 <= k < |sizes.value.elems| ==> '"' !in ToStr(sizes.value.elems[k])
    {
      var a := sizes.value.elems;
      assert Truthy(LengthOf(sizes.value));
      assert Picker(open, sizes) == Ok(open + Buttons(a) + PickerClose);
      PickerReads(open, a);
    }
  }

  lemma PickerOmitted(open: string, sizes: Value)
    ensures Picker(open, sizes) == Ok("") <==> !(Truthy(sizes) && Truthy(LengthOf(sizes.value)))
    ensures sizes == Some(JArr([])) ==> Picker(open, sizes) == Ok("")
  {
    if Truthy(sizes) && Truthy(LengthOf(sizes.value)) && sizes.value.JArr? {
      var a := sizes.value.elems;
      assert |open + Buttons(a) + PickerClose| >= |PickerClose| > 0 by { ButtonTexts(); }
    }
  }

  /** After any opening text, the buttons read back as the sizes. */
  lemma PickerReads(open: string, a: seq<Json>)
    requires forall k :: 0 <= k < |a| ==> '"' !in ToStr(a[k])
    ensures StartsWith(open + Buttons(a) + PickerClose, open)
    ensures ReadButtons((open + Buttons(a) + PickerClose)[|open|..]) == SizeLabels(a)
  {
    CloseEndsButtons();
    ReadButtonsBack(a, PickerClose);
    ReadAfter(open, Buttons(a), PickerClose, SizeLabels(a));
  }

  lemma CloseEndsButtons()
    ensures PickerClose == [] || PickerClose[0] != '<'
  {
    ButtonTexts();
  }

  lemma ReadAfter(open: string, body: string, close: string, labels: seq<string>)
    requires ReadButtons(body + close) == labels
    ensures StartsWith(open + body + close, open)
    ensures ReadButtons((open + body + close)[|open|..]) == labels
  {
    Regroup3(open, body, close);
    AfterPrefix(open, body + close);
  }

  lemma Regroup3(a: string, b: string, c: string)
    ensures a + b + c == a + (b + c)
  {
  }

  // ---------------------------------------------------------------------------
  // Features, footer and the page body
  // ---------------------------------------------------------------------------

  /** `features.map(x => <li>✔ escapeHtml(x)</li>).join('')`. */
  function FeatureItems(xs: seq<Json>): string {
    if xs == [] then ""
    else "<li>\U{2714} " + EscapeHtml(ToStr(xs[0])) + "</li>" + FeatureItems(xs[1..])
  }

  /** The feature list; mapping anything but an array throws. */
  function FeatureList(features: Value): Result<string> {
    match Prop(features, "map")
    case Err(m) => Err(m)
    case Ok(_) =>
      if features.value.JArr? then Ok("<ul class=\"list\">\n" + FeatureItems(features.value.elems) + "</ul>\n")
      else Err("features.map is not a function")
  }

  /** The brand tagline of the footer: `data.brand.tagline_xx`, not escaped. */
  function FooterTagline(lang: string, brand: Value): Result<string> {
    match Prop(brand, if lang == "fr" then "tagline_fr" else "tagline_en")
    case Err(m) => Err(m)
    case Ok(t) => Ok("<div><strong>ALTURA</strong><div class=\"muted\">" + JsString(t) + "</div></div>\n")
  }

  /** The localised field `key_fr` or `key_en` of a product. */
  function Localised(p: Json, lang: string, key: string): Value {
    Get(p, key + (if lang == "fr" then "_fr" else "_en"))
  }

  /** The page body, its parts in page order, evaluated as the template
      literal does: the size picker first, then the features, then the
      footer. */
  function Body(lang: string, p: Json, brand: Value): Result<string> {
    var code := Get(p, "code");
    match SizePicker(lang, code, Get(p, "sizes"))
    case Err(m) => Err(m)
    case Ok(picker) =>
      match FeatureList(Localised(p, lang, "features"))
      case Err(m) => Err(m)
      case Ok(features) =>
        match FooterTagline(lang, brand)
        case Err(m) => Err(m)
        case Ok(footer) =>
          Ok(Header(lang, Get(p, "path_root"))
             + ProductCard(code, Localised(p, lang, "name"), Localised(p, lang, "tagline"))
             + picker + features + footer)
  }

  // ---------------------------------------------------------------------------
  // Where pages are written
  // ---------------------------------------------------------------------------

  /** `path.join('/mnt/data/altura_turnkey/site')`. */
  const Root := "/" + "mnt" + "/" + "data" + "/" + "altura_turnkey" + "/" + "site"
  const RootSegs := ["mnt", "data", "altura_turnkey", "site"]

  /** `path.join(path.join(root, lang, 'p', slug), 'index.html')`. */
  function PageFile(root: string, lang: string, slug: string): string {
    var dir := NormalizeAbs(Joined(Joined(Joined(root, lang), "p"), slug));
    JoinPath(dir, "index.html")
  }

  /** Where the page of `slug` in `lang` is written. */
  function PagePath(lang: string, slug: string): string {
    PageFile(Root, lang, slug)
  }

  lemma PathTextSnoc(segs: seq<string>, x: string)
    requires segs != []
    ensures PathText(segs + [x]) == PathText(segs) + "/" + x
  {
    assert (segs + [x])[..|segs + [x]| - 1] == segs;
  }

  lemma RootClean()
    ensures Clean(RootSegs)
  {
  }

  lemma RootText()
    ensures Root == PathText(RootSegs)
  {
    var s1 := ["mnt"];
    var s2 := s1 + ["data"];
    var s3 := s2 + ["altura_turnkey"];
    assert JoinSlash(s1) == "mnt";
    PathTextSnoc(s1, "data");
    PathTextSnoc(s2, "altura_turnkey");
    PathTextSnoc(s3, "site");
    assert s3 + ["site"] == RootSegs;
  }

  /** A path made of clean segments is already normal. */
  lemma NormalizeClean(segs: seq<string>)
    requires segs != [] && Clean(segs)
    ensures NormalizeAbs(PathText(segs)) == PathText(segs)
  {
    ResolveBase(segs);
    var last := segs[|segs| - 1];
    var p := PathText(segs);
    if |segs| == 1 {
      assert p == "/" + last;
    } else {
      PathTextSnoc(segs[..|segs| - 1], last);
      assert segs[..|segs| - 1] + [last] == segs;
    }
    assert p[|p| - 1] == last[|last| - 1] && last[|last| - 1] in last;
    assert p + "" == p;
  }

  /** A segment a page path can be built from. */
  predicate PathPart(x: string) {
    PlainSegment(x) && '/' !in x
  }

  /** The segments of the page of `slug` in `lang` under the root `root`. */
  function PageSegs(root: seq<string>, lang: string, slug: string): seq<string> {
    root + [lang, "p", slug, "index.html"]
  }

  lemma PageSegsClean(root: seq<string>, lang: string, slug: string)
    requires Clean(root) && PathPart(lang) && PathPart(slug)
    ensures Clean(root + [lang, "p", slug]) && Clean(PageSegs(root, lang, slug))
  {
    var s4 := PageSegs(root, lang, slug);
    assert forall k :: 0 <= k < |root| ==> s4[k] == root[k];
    assert s4[|root|..] == [lang, "p", slug, "index.html"];
  }

  /** Under a clean root, the page file is `<root>/<lang>/p/<slug>/index.html`
      with nothing normalised away. */
  lemma PageFileSpec(root: seq<string>, lang: string, slug: string)
    requires root != [] && Clean(root) && PathPart(lang) && PathPart(slug)
    ensures PageFile(PathText(root), lang, slug) == PathText(PageSegs(root, lang, slug))
    ensures PageFile(PathText(root), lang, slug) == PathText(root) + "/" + lang + "/p/" + slug + "/index.html"
  {
    var s1 := root + [lang];
    var s2 := s1 + ["p"];
    var s3 := s2 + [slug];
    var s4 := s3 + ["index.html"];
    PathTextSnoc(root, lang);
    PathTextSnoc(s1, "p");
    PathTextSnoc(s2, slug);
    PathTextSnoc(s3, "index.html");
    assert s3 == root + [lang, "p", slug];
    assert s4 == PageSegs(root, lang, slug);
    PageSegsClean(root, lang, slug);
    NormalizeClean(s3);
    NormalizeClean(s4);
    PageTextShape(PathText(root), lang, slug);
  }

  /** The four joins spelt out as one text. */
  lemma PageTextShape(t: string, lang: string, slug: string)
    ensures t + "/" + lang + "/" + "p" + "/" + slug + "/" + "index.html"
      == t + "/" + lang + "/p/" + slug + "/index.html"
  {
    var u := t + "/" + lang;
    assert "/" + "p" + "/" == "/p/";
    assert "/" + "index.html" == "/index.html";
    calc {
      u + "/" + "p" + "/" + slug + "/" + "index.html";
      { Regroup(u, "/", "p", "/"); }
      u + ("/" + "p" + "/") + slug + "/" + "index.html";
      u + "/p/" + slug + ("/" + "index.html");
      u + "/p/" + slug + "/index.html";
    }
  }

  /** For a plain language and slug without slashes the page lands at
      `<root>/<lang>/p/<slug>/index.html`. */
  lemma PagePathSpec(lang: string, slug: string)
    requires PathPart(lang) && PathPart(slug)
    ensures PagePath(lang, slug) == PathText(PageSegs(RootSegs, lang, slug))
    ensures PagePath(lang, slug) == Root + "/" + lang + "/p/" + slug + "/index.html"
  {
    RootText();
    RootClean();
    PageFileSpec(RootSegs, lang, slug);
  }

  lemma PageFileInjective(root: seq<string>, l1: string, s1: string, l2: string, s2: string)
    requires root != [] && Clean(root)
    requires PathPart(l1) && PathPart(s1) && PathPart(l2) && PathPart(s2)
    requires PathText(PageSegs(root, l1, s1)) == PathText(PageSegs(root, l2, s2))
    ensures l1 == l2 && s1 == s2
  {
    var t1 := PageSegs(root, l1, s1);
    var t2 := PageSegs(root, l2, s2);
    PageSegsClean(root, l1, s1);
    PageSegsClean(root, l2, s2);
    SplitPathText(t1);
    SplitPathText(t2);
    assert ([""] + t1)[|root| + 1] == l1 && ([""] + t2)[|root| + 1] == l2;
    assert ([""] + t1)[|root| + 3] == s1 && ([""] + t2)[|root| + 3] == s2;
  }

  /** Different languages or slugs give different files. */
  lemma PagePathInjective(l1: string, s1: string, l2: string, s2: string)
    requires PathPart(l1) && PathPart(s1) && PathPart(l2) && PathPart(s2)
    requires PagePath(l1, s1) == PagePath(l2, s2)
    ensures l1 == l2 && s1 == s2
  {
    PagePathSpec(l1, s1);
    PagePathSpec(l2, s2);
    RootClean();
    PageFileInjective(RootSegs, l1, s1, l2, s2);
  }

  // ---------------------------------------------------------------------------
  // One page, and the run over the catalogue
  // ---------------------------------------------------------------------------

  /** A file the generator writes. */
  datatype Page = Page(path: string, html: string)

  const PathTypeError := "The \"path\" argument must be of type string"

  /** The page of one product in one language, or the error that stops the
      run: a null product, a slug that is not a string, or a body part that
      throws. */
  function PageFor(lang: string, p: Json, brand: Value): Result<Page> {
    match Prop(Some(p), "slug")
    case Err(m) => Err(m)
    case Ok(slug) =>
      if !(slug.Some? && slug.value.JStr?) then Err(PathTypeError)
      else
        match Body(lang, p, brand)
        case Err(m) => Err(m)
        case Ok(body) => Ok(PageOf(lang, p, slug.value.s, body))
  }

  /** The written page once the slug and the body are known. */
  function PageOf(lang: string, p: Json, slug: string, body: string): Page {
    Page(PagePath(lang, slug), Layout(lang, PageTitle(p, lang), body, Localised(p, lang, "description")))
  }

  /** `${name} — ALTURA`. */
  function PageTitle(p: Json, lang: string): string {
    JsString(Localised(p, lang, "name")) + " \U{2014} ALTURA"
  }

  /** A page that was written was built from a string slug and a body. */
  lemma PageForOk(lang: string, p: Json, brand: Value)
    requires PageFor(lang, p, brand).Ok?
    ensures Get(p, "slug").Some? && Get(p, "slug").value.JStr? && Body(lang, p, brand).Ok?
    ensures PageFor(lang, p, brand).value == PageOf(lang, p, Get(p, "slug").value.s, Body(lang, p, brand).value)
  {
  }

  /** A written page goes to the file of its slug and language. */
  lemma PageForPath(lang: string, p: Json, brand: Value)
    requires PageFor(lang, p, brand).Ok?
    ensures Get(p, "slug").Some? && Get(p, "slug").value.JStr?
    ensures PageFor(lang, p, brand).value.path == PagePath(lang, Get(p, "slug").value.s)
  {
    PageForOk(lang, p, brand);
  }

  /** A written page is laid out in its language, titled with the product's
      name and described by its localised description when that is truthy. */
  lemma PageForSpec(lang: string, p: Json, brand: Value)
    requires PageFor(lang, p, brand).Ok?
    ensures var html := PageFor(lang, p, brand).value.html;
      (HtmlLang(html) == Some("fr") <==> lang == "fr")
      && TitleOf(html) == Some(JsString(Localised(p, lang, "name")) + " \U{2014} ALTURA")
      && (DescriptionOf(html).Some? <==> Truthy(Localised(p, lang, "description")))
  {
    PageForOk(lang, p, brand);
    PageOfSpec(lang, p, Get(p, "slug").value.s, Body(lang, p, brand).value);
  }

  lemma PageOfSpec(lang: string, p: Json, slug: string, body: string)
    ensures var html := PageOf(lang, p, slug, body).html;
      (HtmlLang(html) == Some("fr") <==> lang == "fr")
      && TitleOf(html) == Some(PageTitle(p, lang))
      && (DescriptionOf(html).Some? <==> Truthy(Localised(p, lang, "description")))
  {
    LayoutReadsBack(lang, PageTitle(p, lang), body, Localised(p, lang, "description"));
  }

  /** The page of a job, as the loop body computes it. */
  function Maker(brand: Value): (string, Json) -> Result<Page> {
    (lang: string, p: Json) => PageFor(lang, p, brand)
  }

  /** The two languages, in the order the outer loop visits them. */
  const Langs := ["en", "fr"]

  /** The (language, product) pairs in the order the nested loops visit
      them: every product in English, then every product in French. */
  function Jobs(products: seq<Json>): (jobs: seq<(string, Json)>)
    ensures |jobs| == 2 * |products|
    ensures forall k :: 0 <= k < |products| ==> jobs[k] == ("en", products[k])
    ensures forall k :: 0 <= k < |products| ==> jobs[|products| + k] == ("fr", products[k])
  {
    seq(|products|, k requires 0 <= k < |products| => ("en", products[k]))
    + seq(|products|, k requires 0 <= k < |products| => ("fr", products[k]))
  }

  /** What a run leaves behind: the pages written, and the error that
      stopped it, if any. */
  datatype Run = Run(pages: seq<Page>, failure: Option<string>)

  /** The run over `jobs`: pages in order until the first one that throws. */
  function RunJobs(jobs: seq<(string, Json)>, make: (string, Json) -> Result<Page>): Run {
    if jobs == [] then Run([], None)
    else
      var r := RunJobs(jobs[..|jobs| - 1], make);
      var last := jobs[|jobs| - 1];
      if r.failure.Some? then r
      else match make(last.0, last.1)
        case Err(m) => Run(r.pages, Some(m))
        case Ok(page) => Run(r.pages + [page], None)
  }

  /** A run that has failed stays as it is. */
  lemma {:induction false} RunStops(jobs: seq<(string, Json)>, k: nat, make: (string, Json) -> Result<Page>)
    requires k <= |jobs| && RunJobs(jobs[..k], make).failure.Some?
    ensures RunJobs(jobs, make) == RunJobs(jobs[..k], make)
    decreases |jobs| - k
  {
    if k < |jobs| {
      assert jobs[..k + 1][..k] == jobs[..k];
      RunStops(jobs, k + 1, make);
    } else {
      assert jobs[..k] == jobs;
    }
  }

  /** The pages of a run are those of its jobs in order, up to the first job
      that throws; the run fails with that job's error, and succeeds exactly
      when no job throws. */
  lemma {:induction false} RunJobsSpec(jobs: seq<(string, Json)>, make: (string, Json) -> Result<Page>)
    ensures var r := RunJobs(jobs, make);
      |r.pages| <= |jobs|
      && (forall k :: 0 <= k < |r.pages| ==> make(jobs[k].0, jobs[k].1) == Ok(r.pages[k]))
      && (r.failure.None? <==> forall k :: 0 <= k < |jobs| ==> make(jobs[k].0, jobs[k].1).Ok?)
      && (r.failure.None? ==> |r.pages| == |jobs|)
      && (r.failure.Some? ==> make(jobs[|r.pages|].0, jobs[|r.pages|].1) == Err(r.failure.value))
    decreases |jobs|
  {
    if jobs != [] {
      var init := jobs[..|jobs| - 1];
      RunJobsSpec(init, make);
      assert forall k :: 0 <= k < |init| ==> init[k] == jobs[k];
    }
  }

  /** One more job: its page is appended, or its error ends the whole run. */
  lemma RunStep(jobs: seq<(string, Json)>, d: nat, make: (string, Json) -> Result<Page>)
    requires d < |jobs| && RunJobs(jobs[..d], make).failure.None?
    ensures var r := make(jobs[d].0, jobs[d].1);
      r.Ok? ==> RunJobs(jobs[..d + 1], make) == Run(RunJobs(jobs[..d], make).pages + [r.value], None)
    ensures var r := make(jobs[d].0, jobs[d].1);
      r.Err? ==> RunJobs(jobs, make) == Run(RunJobs(jobs[..d], make).pages, Some(r.message))
  {
    assert jobs[..d + 1][..d] == jobs[..d];
    assert jobs[..d + 1][d] == jobs[d];
    if make(jobs[d].0, jobs[d].1).Err? {
      RunStops(jobs, d + 1, make);
    }
  }

  /** The generator's two nested loops, with `make` the loop body's page:
      every product in English, then every product in French, each page
      appended as it is written, stopping at the first error. */
  method GenerateWith(products: seq<Json>, make: (string, Json) -> Result<Page>)
    returns (pages: seq<Page>, failure: Option<string>)
    ensures Run(pages, failure) == RunJobs(Jobs(products), make)
  {
    ghost var jobs := Jobs(products);
    var n := |products|;
    pages := [];
    failure := None;
    var i := 0;
    while i < 2
      invariant 0 <= i <= 2
      invariant Run(pages, None) == RunJobs(jobs[..(if i == 0 then 0 else if i == 1 then n else 2 * n)], make)
      invariant failure.None?
    {
      ghost var start := if i == 0 then 0 else n;
      assert forall k :: 0 <= k < n ==> jobs[start + k] == (Langs[i], products[k]);
      pages, failure := GenerateLanguage(products, Langs[i], make, pages, jobs, start);
      if failure.Some? {
        return;
      }
      i := i + 1;
    }
    assert jobs[..2 * n] == jobs;
  }

  /** The inner loop for one language: the jobs from `start` on are that
      language's products, and the pages written so far are those of the
      jobs before `start`. */
  method GenerateLanguage(products: seq<Json>, lang: string, make: (string, Json) -> Result<Page>,
                          written: seq<Page>, ghost jobs: seq<(string, Json)>, ghost start: nat)
    returns (pages: seq<Page>, failure: Option<string>)
    requires start + |products| <= |jobs|
    requires forall k :: 0 <= k < |products| ==> jobs[start + k] == (lang, products[k])
    requires Run(written, None) == RunJobs(jobs[..start], make)
    ensures failure.None? ==> Run(pages, None) == RunJobs(jobs[..start + |products|], make)
    ensures failure.Some? ==> Run(pages, failure) == RunJobs(jobs, make)
  {
    pages := written;
    failure := None;
    var j := 0;
    while j < |products|
      invariant 0 <= j <= |products|
      invariant Run(pages, None) == RunJobs(jobs[..start + j], make)
    {
      assert jobs[start + j] == (lang, products[j]);
      RunStep(jobs, start + j, make);
      var r := make(lang, products[j]);
      if r.Err? {
        failure := Some(r.message);
        return;
      }
      pages := pages + [r.value];
      j := j + 1;
    }
  }

  /** The generator run over the catalogue's products. */
  method GeneratePages(products: seq<Json>, brand: Value) returns (pages: seq<Page>, failure: Option<string>)
    ensures Run(pages, failure) == RunJobs(Jobs(products), Maker(brand))
  {
    pages, failure := GenerateWith(products, Maker(brand));
  }

  /** The slug of a product, when it is a string. */
  function SlugOf(p: Json): string {
    var slug := Get(p, "slug");
    if slug.Some? && slug.value.JStr? then slug.value.s else ""
  }

  /** A string slug that can name a page directory. */
  predicate PlainSlug(p: Json) {
    var slug := Get(p, "slug");
    slug.Some? && slug.value.JStr? && PathPart(slug.value.s)
  }

  /** Slugs that can name a page directory. */
  predicate PlainSlugs(products: seq<Json>) {
    forall k :: 0 <= k < |products| ==> PlainSlug(products[k])
  }

  /** Every page `make` produces goes to the file of its slug and language. */
  ghost predicate WritesPagePaths(make: (string, Json) -> Result<Page>) {
    forall lang, p :: make(lang, p).Ok? ==>
      Get(p, "slug").Some? && Get(p, "slug").value.JStr?
      && make(lang, p).value.path == PagePath(lang, SlugOf(p))
  }

  /** The generator's page function writes each page to its slug's file. */
  lemma MakerWritesPagePaths(brand: Value)
    ensures WritesPagePaths(Maker(brand))
  {
    forall lang, p | Maker(brand)(lang, p).Ok?
      ensures Get(p, "slug").Some? && Get(p, "slug").value.JStr?
      ensures Maker(brand)(lang, p).value.path == PagePath(lang, SlugOf(p))
    {
      PageForPath(lang, p, brand);
    }
  }

  /** A run in which no page throws writes one page per language and
      product: the English pages first and the French ones after, each in
      catalogue order, each at its slug's file (`PagePathSpec`). */
  lemma AllPages(products: seq<Json>, make: (string, Json) -> Result<Page>)
    requires WritesPagePaths(make)
    requires RunJobs(Jobs(products), make).failure.None?
    ensures var pages := RunJobs(Jobs(products), make).pages;
      |pages| == 2 * |products|
      && (forall k :: 0 <= k < |products| ==>
            make("en", products[k]) == Ok(pages[k])
            && make("fr", products[k]) == Ok(pages[|products| + k])
            && pages[k].path == PagePath("en", SlugOf(products[k]))
            && pages[|products| + k].path == PagePath("fr", SlugOf(products[k])))
  {
    var jobs := Jobs(products);
    RunJobsSpec(jobs, make);
    var pages := RunJobs(jobs, make).pages;
    forall k | 0 <= k < |products|
      ensures make("en", products[k]) == Ok(pages[k])
      ensures make("fr", products[k]) == Ok(pages[|products| + k])
      ensures pages[k].path == PagePath("en", SlugOf(products[k]))
      ensures pages[|products| + k].path == PagePath("fr", SlugOf(products[k]))
    {
      assert jobs[k] == ("en", products[k]);
      assert jobs[|products| + k] == ("fr", products[k]);
    }
  }

  lemma PagePathsDiffer(l1: string, s1: string, l2: string, s2: string)
    requires PathPart(l1) && PathPart(s1) && PathPart(l2) && PathPart(s2)
    requires l1 != l2 || s1 != s2
    ensures PagePath(l1, s1) != PagePath(l2, s2)
  {
    if PagePath(l1, s1) == PagePath(l2, s2) {
      PagePathInjective(l1, s1, l2, s2);
    }
  }

  /** Pages `make` produces for different languages or different plain
      slugs go to different files. */
  ghost predicate SeparatesPages(make: (string, Json) -> Result<Page>) {
    forall l1, p1, l2, p2 ::
      make(l1, p1).Ok? && make(l2, p2).Ok? && PathPart(l1) && PathPart(l2)
      && PlainSlug(p1) && PlainSlug(p2) && (l1 != l2 || SlugOf(p1) != SlugOf(p2))
      ==> make(l1, p1).value.path != make(l2, p2).value.path
  }

  /** A page function that writes each page to its slug's file gives every
      language and slug its own file. */
  lemma WritesSeparates(make: (string, Json) -> Result<Page>)
    requires WritesPagePaths(make)
    ensures SeparatesPages(make)
  {
    forall l1, p1, l2, p2 | make(l1, p1).Ok? && make(l2, p2).Ok? && PathPart(l1) && PathPart(l2)
      && PlainSlug(p1) && PlainSlug(p2) && (l1 != l2 || SlugOf(p1) != SlugOf(p2))
      ensures make(l1, p1).value.path != make(l2, p2).value.path
    {
      PagePathsDiffer(l1, SlugOf(p1), l2, SlugOf(p2));
    }
  }

  lemma LangsArePathParts()
    ensures PathPart("en") && PathPart("fr")
  {
  }

  lemma Separated(make: (string, Json) -> Result<Page>, l1: string, p1: Json, l2: string, p2: Json)
    requires SeparatesPages(make)
    requires make(l1, p1).Ok? && make(l2, p2).Ok? && PathPart(l1) && PathPart(l2)
    requires PlainSlug(p1) && PlainSlug(p2) && (l1 != l2 || SlugOf(p1) != SlugOf(p2))
    ensures make(l1, p1).value.path != make(l2, p2).value.path
  {
  }

  /** Where the job of position `k` sits among 2 * n jobs. */
  function JobLang(n: nat, k: nat): string {
    if k < n then "en" else "fr"
  }

  function JobProduct(n: nat, k: nat): nat {
    if k < n then k else k - n
  }

  lemma RunPageAt(products: seq<Json>, make: (string, Json) -> Result<Page>, k: nat)
    requires RunJobs(Jobs(products), make).failure.None?
    requires k < 2 * |products|
    ensures var pages := RunJobs(Jobs(products), make).pages;
      |pages| == 2 * |products| && JobProduct(|products|, k) < |products|
      && make(JobLang(|products|, k), products[JobProduct(|products|, k)]) == Ok(pages[k])
  {
    var jobs := Jobs(products);
    RunJobsSpec(jobs, make);
    assert jobs[k] == (JobLang(|products|, k), products[JobProduct(|products|, k)]);
  }

  /** With distinct plain slugs, every page of a run goes to its own file. */
  lemma PagesDistinct(products: seq<Json>, make: (string, Json) -> Result<Page>, a: nat, b: nat)
    requires SeparatesPages(make)
    requires RunJobs(Jobs(products), make).failure.None?
    requires PlainSlugs(products)
    requires forall i, j :: 0 <= i < j < |products| ==> SlugOf(products[i]) != SlugOf(products[j])
    requires a < b < 2 * |products|
    ensures var pages := RunJobs(Jobs(products), make).pages;
      b < |pages| && pages[a].path != pages[b].path
  {
    RunPageAt(products, make, a);
    RunPageAt(products, make, b);
    JobsSeparated(products, make, a, b);
  }

  /** Two different jobs whose pages are written write different files. */
  lemma JobsSeparated(products: seq<Json>, make: (string, Json) -> Result<Page>, a: nat, b: nat)
    requires SeparatesPages(make)
    requires PlainSlugs(products)
    requires forall i, j :: 0 <= i < j < |products| ==> SlugOf(products[i]) != SlugOf(products[j])
    requires a < b < 2 * |products|
    requires make(JobLang(|products|, a), products[JobProduct(|products|, a)]).Ok?
    requires make(JobLang(|products|, b), products[JobProduct(|products|, b)]).Ok?
    ensures make(JobLang(|products|, a), products[JobProduct(|products|, a)]).value.path
      != make(JobLang(|products|, b), products[JobProduct(|products|, b)]).value.path
  {
    var n := |products|;
    var pa := JobProduct(n, a);
    var pb := JobProduct(n, b);
    var la := JobLang(n, a);
    var lb := JobLang(n, b);
    assert la != lb || SlugOf(products[pa]) != SlugOf(products[pb]) by {
      if la == lb {
        assert pa < pb;
        assert SlugOf(products[pa]) != SlugOf(products[pb]);
      }
    }
    assert PathPart(la) && PathPart(lb) by { LangsArePathParts(); }
    assert PlainSlug(products[pa]) && PlainSlug(products[pb]);
    Separated(make, la, products[pa], lb, products[pb]);
  }
}
