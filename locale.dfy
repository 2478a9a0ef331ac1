/** The language of a page is carried by the first characters of its path
    (`/en/...`, `/fr/...`). Both storefront scripts read it with the same
    `langFromPath` and rewrite it with the same `replace(/^\/(en|fr)/, ...)`. */
module Locale {
  import opened JsBuiltins

  /** `langFromPath`: "fr" for any path that starts with "/fr", else "en". */
  function LangFromPath(path: string): (lang: string)
    ensures lang == "fr" || lang == "en"
    ensures lang == "fr" <==> StartsWith(path, "/fr")
  {
    if StartsWith(path, "/fr") then "fr" else "en"
  }

  /** The path starts with "/en" or "/fr" (the regular expression has no
      segment boundary, so "/english" matches too). */
  predicate HasLangPrefix(path: string) {
    StartsWith(path, "/en") || StartsWith(path, "/fr")
  }

  /** `path.replace(/^\/(en|fr)/, "/" + target)`. */
  function RewriteLangPrefix(path: string, target: string): (r: string)
    ensures HasLangPrefix(path) ==> r == "/" + target + path[3..]
    ensures !HasLangPrefix(path) ==> r == path
  {
    if HasLangPrefix(path) then "/" + target + path[3..] else path
  }

  /** The language-toggle click handler: the other language of the current
      path, written over the leading language prefix, plus the query. */
  function ToggledLocation(path: string, search: string): string {
    var next := if LangFromPath(path) == "en" then "fr" else "en";
    RewriteLangPrefix(path, next) + search
  }

  /** The language-switch click handler: an explicit target language. */
  function SwitchedLocation(path: string, search: string, target: string): string {
    RewriteLangPrefix(path, target) + search
  }

  /** The rewrite touches only the leading three characters: the rest of the
      path follows the new prefix unchanged. */
  lemma RewriteKeepsRest(path: string, target: string)
    requires HasLangPrefix(path)
    ensures StartsWith(RewriteLangPrefix(path, target), "/" + target)
    ensures RewriteLangPrefix(path, target)[1 + |target|..] == path[3..]
  {
  }

  /** The prefix the toggle writes over a prefixed path. */
  function OtherPrefix(path: string): string {
    if StartsWith(path, "/fr") then "/en" else "/fr"
  }

  lemma ToggleOnce(path: string)
    requires HasLangPrefix(path)
    ensures ToggledLocation(path, "") == OtherPrefix(path) + path[3..]
  {
    var next := if LangFromPath(path) == "en" then "fr" else "en";
    assert "/" + next == OtherPrefix(path);
    assert ToggledLocation(path, "") == RewriteLangPrefix(path, next) + "";
  }

  lemma SplitPrefix(p: string, rest: string)
    requires |p| == 3
    ensures (p + rest)[..3] == p && (p + rest)[3..] == rest
  {
  }

  /** Toggling a prefixed path flips its language, and toggling twice restores
      the path; a path without a language prefix is left as it is, so its
      language does not change. */
  lemma ToggleFlips(path: string)
    ensures HasLangPrefix(path) ==>
      LangFromPath(ToggledLocation(path, "")) != LangFromPath(path)
      && ToggledLocation(ToggledLocation(path, ""), "") == path
    ensures !HasLangPrefix(path) ==> ToggledLocation(path, "") == path
  {
    if HasLangPrefix(path) {
      var once := ToggledLocation(path, "");
      ToggleOnce(path);
      SplitPrefix(OtherPrefix(path), path[3..]);
      assert once[..3] == OtherPrefix(path) && once[3..] == path[3..];
      assert HasLangPrefix(once);
      assert StartsWith(once, "/fr") <==> !StartsWith(path, "/fr");
      ToggleOnce(once);
      assert OtherPrefix(once) == path[..3];
      assert path == path[..3] + path[3..];
    } else {
      assert ToggledLocation(path, "") == path + "";
    }
  }
}
