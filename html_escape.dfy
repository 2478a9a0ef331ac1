/** The two escaping helpers of ALTURA_DOCS/docs/generate_pages.js:
    `escapeHtml` for element text and `escapeAttr` for attribute values. */
module HtmlEscape {
  import opened JsBuiltins

  /** The replacement of one character by `escapeHtml`. */
  function EscChar(c: char): string {
    if c == '&' then "&amp;"
    else if c == '<' then "&lt;"
    else if c == '>' then "&gt;"
    else [c]
  }

  /** `String(s).replace(/[&<>]/g, ...)`: "&", "<" and ">" become their
      entities and every other character is copied, in order. */
  function EscapeHtml(s: string): (r: string)
    ensures '<' !in r && '>' !in r
    ensures |r| >= |s|
  {
    if s == [] then "" else EscChar(s[0]) + EscapeHtml(s[1..])
  }

  /** Text a browser shows as it is: no "&", "<" or ">". */
  predicate PlainText(s: string) {
    '&' !in s && '<' !in s && '>' !in s
  }

  /** Reads the three entities back. */
  function UnescapeHtml(t: string): string
    decreases |t|
  {
    if t == [] then ""
    else if StartsWith(t, "&amp;") then "&" + UnescapeHtml(t[5..])
    else if StartsWith(t, "&lt;") then "<" + UnescapeHtml(t[4..])
    else if StartsWith(t, "&gt;") then ">" + UnescapeHtml(t[4..])
    else [t[0]] + UnescapeHtml(t[1..])
  }

  /** One escaped character, followed by anything, reads back to that
      character followed by the reading of the rest. */
  lemma UnescapeStep(c: char, rest: string)
    ensures UnescapeHtml(EscChar(c) + rest) == [c] + UnescapeHtml(rest)
  {
    var t := EscChar(c) + rest;
    if c == '&' {
      assert t[..5] == "&amp;" && t[5..] == rest;
      assert UnescapeHtml(t) == "&" + UnescapeHtml(t[5..]);
    } else if c == '<' {
      assert t[1] == 'l';
      assert !StartsWith(t, "&amp;");
      assert t[..4] == "&lt;" && t[4..] == rest;
      assert UnescapeHtml(t) == "<" + UnescapeHtml(t[4..]);
    } else if c == '>' {
      assert t[1] == 'g';
      assert !StartsWith(t, "&amp;") && !StartsWith(t, "&lt;");
      assert t[..4] == "&gt;" && t[4..] == rest;
      assert UnescapeHtml(t) == ">" + UnescapeHtml(t[4..]);
    } else {
      assert t[0] == c && t[1..] == rest;
      assert !StartsWith(t, "&amp;") && !StartsWith(t, "&lt;") && !StartsWith(t, "&gt;");
      assert UnescapeHtml(t) == [t[0]] + UnescapeHtml(t[1..]);
    }
  }

  /** Escaping loses nothing: the entities read back to the original text. */
  lemma {:induction false} UnescapeEscapeHtml(s: string)
    ensures UnescapeHtml(EscapeHtml(s)) == s
    decreases |s|
  {
    if s != [] {
      UnescapeStep(s[0], EscapeHtml(s[1..]));
      UnescapeEscapeHtml(s[1..]);
      assert [s[0]] + s[1..] == s;
    }
  }

  /** Text without "&", "<" and ">" is copied unchanged. */
  lemma {:induction false} EscapeHtmlPlain(s: string)
    requires PlainText(s)
    ensures EscapeHtml(s) == s
    decreases |s|
  {
    if s != [] {
      assert PlainText(s[1..]);
      EscapeHtmlPlain(s[1..]);
      assert [s[0]] + s[1..] == s;
    }
  }

  /** Escaping works piece by piece: the escape of two texts one after the
      other is the two escapes one after the other. */
  lemma {:induction false} EscapeHtmlConcat(a: string, b: string)
    ensures EscapeHtml(a + b) == EscapeHtml(a) + EscapeHtml(b)
    decreases |a|
  {
    if a == [] {
      assert a + b == b;
    } else {
      assert (a + b)[0] == a[0] && (a + b)[1..] == a[1..] + b;
      EscapeHtmlConcat(a[1..], b);
    }
  }

  /** `String(s).replace(/"/g, '&quot;')`: only double quotes are replaced. */
  function EscapeAttr(s: string): (r: string)
    ensures '"' !in r
    ensures |r| >= |s|
  {
    if s == [] then ""
    else (if s[0] == '"' then "&quot;" else [s[0]]) + EscapeAttr(s[1..])
  }

  /** Reads "&quot;" back into a double quote. */
  function UnescapeAttr(t: string): string
    decreases |t|
  {
    if t == [] then ""
    else if StartsWith(t, "&quot;") then "\"" + UnescapeAttr(t[6..])
    else [t[0]] + UnescapeAttr(t[1..])
  }

  /** An attribute value without "&" reads back to itself. */
  lemma {:induction false} UnescapeEscapeAttr(s: string)
    requires '&' !in s
    ensures UnescapeAttr(EscapeAttr(s)) == s
    decreases |s|
  {
    if s != [] {
      var t := EscapeAttr(s);
      var e := if s[0] == '"' then "&quot;" else [s[0]];
      assert t == e + EscapeAttr(s[1..]);
      assert t[|e|..] == EscapeAttr(s[1..]);
      assert '&' !in s[1..];
      UnescapeEscapeAttr(s[1..]);
      if s[0] == '"' {
        assert StartsWith(t, "&quot;");
      } else {
        assert t[0] == s[0] != '&';
        assert [s[0]] + s[1..] == s;
      }
    }
  }

  /** Because "&" is left alone, a literal "&quot;" and a double quote end
      up as the same attribute text. */
  lemma EscapeAttrMerges()
    ensures EscapeAttr("\"") == EscapeAttr("&quot;") == "&quot;"
  {
    assert EscapeAttr("\"") == "&quot;" + EscapeAttr("");
    assert EscapeAttr("&quot;") == "&" + EscapeAttr("quot;");
    assert EscapeAttr("quot;") == "q" + EscapeAttr("uot;");
    assert EscapeAttr("uot;") == "u" + EscapeAttr("ot;");
    assert EscapeAttr("ot;") == "o" + EscapeAttr("t;");
    assert EscapeAttr("t;") == "t" + EscapeAttr(";");
    assert EscapeAttr(";") == ";" + EscapeAttr("");
  }
}
