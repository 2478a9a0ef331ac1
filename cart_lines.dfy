/** What both storefront scripts share: the list operations on the lines of
    a cart (merge-or-append on add, `splice(i, 1)` on remove, the `reduce`
    folds behind the badge and the subtotal), the size rule, and the shape of
    the payment server's answer. The list operations are written once over
    any line type; each script instantiates them with its own line record. */
module CartLines {
  import opened JsBuiltins
  import opened JsonValues

  /** `requireSize`: shoes need a selected size (None stands for `null`, the
      "no size chosen" answer after which the cart is left alone); every
      other product gets "". Both scripts apply the same rule. */
  function RequireSize(category: string, selected: string): (size: Option<string>)
    ensures size.None? <==> category == "shoes" && selected == ""
    ensures size.Some? && category == "shoes" ==> size.value == selected
    ensures category != "shoes" ==> size == Some("")
  {
    if category == "shoes" then (if selected == "" then None else Some(selected)) else Some("")
  }

  /** How the payment server's answer reached the page: the fetch failed, or
      a response arrived with its status, its text and its body read as JSON
      (an Err when `res.json()` throws). */
  datatype PayResponse =
    | FetchFailed(message: string)
    | Received(status: int, text: string, json: Result<Json>)

  /** What the checkout click ends in: navigation, an alert, or an error that
      escapes the click handler and shows nothing. */
  datatype PayOutcome = Navigate(url: string) | Alert(message: string) | Unhandled(message: string)

  function ErrorPrefix(lang: string): string {
    if lang == "fr" then "Erreur: " else "Error: "
  }

  /** `find` a matching line; if there is one, replace it by `bump` of it,
      otherwise `push` the new line `added`. */
  function Merge<L>(items: seq<L>, matches: L -> bool, bump: L -> L, added: L): (r: seq<L>)
    ensures FirstIndex(items, matches).Some? ==>
      var k := FirstIndex(items, matches).value;
      |r| == |items| && r[k] == bump(items[k])
      && forall j :: 0 <= j < |items| && j != k ==> r[j] == items[j]
    ensures FirstIndex(items, matches).None? ==> r == items + [added]
  {
    match FirstIndex(items, matches)
    case Some(k) => items[k := bump(items[k])]
    case None => items + [added]
  }

  /** `items.reduce((acc, it) => acc + f(it), 0)`. */
  function Sum<L>(items: seq<L>, f: L -> int): int {
    if items == [] then 0 else Sum(items[..|items| - 1], f) + f(items[|items| - 1])
  }

  lemma {:induction false} SumAppend<L>(a: seq<L>, b: seq<L>, f: L -> int)
    ensures Sum(a + b, f) == Sum(a, f) + Sum(b, f)
    decreases |b|
  {
    if b != [] {
      var b' := b[..|b| - 1];
      assert (a + b)[..|a + b| - 1] == a + b';
      SumAppend(a, b', f);
    } else {
      assert a + b == a;
    }
  }

  lemma SumSingle<L>(x: L, f: L -> int)
    ensures Sum([x], f) == f(x)
  {
    assert [x][..0] == [];
  }

  /** The fold around one line: what comes before, the line, what comes after. */
  lemma SumAround<L>(a: seq<L>, x: L, b: seq<L>, f: L -> int)
    ensures Sum(a + [x] + b, f) == Sum(a, f) + f(x) + Sum(b, f)
  {
    SumAppend(a + [x], b, f);
    SumAppend(a, [x], f);
    SumSingle(x, f);
  }

  /** Changing one line changes the fold by the difference of that line's terms. */
  lemma SumUpdate<L>(items: seq<L>, k: nat, x: L, f: L -> int)
    requires k < |items|
    ensures Sum(items[k := x], f) == Sum(items, f) - f(items[k]) + f(x)
  {
    var before, after := items[..k], items[k + 1..];
    assert items == before + [items[k]] + after;
    assert items[k := x] == before + [x] + after;
    SumAround(before, items[k], after, f);
    SumAround(before, x, after, f);
  }

  /** Removing the line at an in-range index takes exactly its term out of the fold. */
  lemma SumSplice<L>(items: seq<L>, i: int, f: L -> int)
    requires 0 <= i < |items|
    ensures Sum(SpliceRemove(items, i), f) == Sum(items, f) - f(items[i])
  {
    var before, after := items[..i], items[i + 1..];
    assert items == before + [items[i]] + after;
    assert SpliceRemove(items, i) == before + after;
    SumAround(before, items[i], after, f);
    SumAppend(before, after, f);
  }

  /** How a merge moves a fold: by the bumped line's change, or by the added line's term. */
  lemma SumMerge<L>(items: seq<L>, matches: L -> bool, bump: L -> L, added: L, f: L -> int)
    ensures FirstIndex(items, matches).Some? ==>
      var k := FirstIndex(items, matches).value;
      Sum(Merge(items, matches, bump, added), f) == Sum(items, f) - f(items[k]) + f(bump(items[k]))
    ensures FirstIndex(items, matches).None? ==>
      Sum(Merge(items, matches, bump, added), f) == Sum(items, f) + f(added)
  {
    match FirstIndex(items, matches)
    case Some(k) =>
      SumUpdate(items, k, bump(items[k]), f);
    case None =>
      SumAppend(items, [added], f);
      SumSingle(added, f);
  }

  /** Some line satisfies `p` (`items.some(p)`). */
  predicate Any<L>(items: seq<L>, p: L -> bool) {
    exists j :: 0 <= j < |items| && p(items[j])
  }

  lemma AnyInit<L>(items: seq<L>, p: L -> bool)
    requires items != []
    ensures Any(items, p) <==> Any(items[..|items| - 1], p) || p(items[|items| - 1])
  {
    var init := items[..|items| - 1];
    if Any(items, p) {
      var j :| 0 <= j < |items| && p(items[j]);
      if j < |init| {
        assert init[j] == items[j];
      }
    }
    if Any(init, p) {
      var j :| 0 <= j < |init| && p(init[j]);
      assert items[j] == init[j];
    }
  }

  /** A fold of terms that are all at least 1 is positive exactly when there is a line. */
  lemma {:induction false} SumPositive<L>(items: seq<L>, f: L -> int)
    requires forall j :: 0 <= j < |items| ==> f(items[j]) >= 1
    ensures Sum(items, f) >= |items|
    ensures Sum(items, f) > 0 <==> items != []
    decreases |items|
  {
    if items != [] {
      SumPositive(items[..|items| - 1], f);
    }
  }
}
