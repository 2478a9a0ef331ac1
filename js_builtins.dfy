/** The JavaScript built-ins the storefront leans on (String.prototype.trim,
    startsWith, toLowerCase/toUpperCase, Number-to-String, parseInt(_, 10),
    Array.prototype.find/findIndex, splice(i, 1)), stated on Dafny values. */
module JsBuiltins {

  datatype Option<+T> = None | Some(value: T)

  /** A value or a thrown error message. */
  datatype Result<+T> = Ok(value: T) | Err(message: string)

  // ---------------------------------------------------------------------------
  // Strings
  // ---------------------------------------------------------------------------

  predicate StartsWith(s: string, prefix: string) {
    |prefix| <= |s| && s[..|prefix|] == prefix
  }

  predicate EndsWith(s: string, suffix: string) {
    |suffix| <= |s| && s[|s| - |suffix|..] == suffix
  }

  /** The WhiteSpace and LineTerminator code points that String.prototype.trim strips. */
  predicate IsJsSpace(c: char) {
    c == ' ' || c == '\t' || c == '\n' || c == '\U{B}' || c == '\U{C}' || c == '\r'
    || c == '\U{A0}' || c == '\U{FEFF}' || c == '\U{1680}'
    || ('\U{2000}' <= c <= '\U{200A}')
    || c == '\U{2028}' || c == '\U{2029}' || c == '\U{202F}' || c == '\U{205F}' || c == '\U{3000}'
  }

  /** Drops leading white space: the result is a suffix of `s` that starts
      with a non-space (or is empty), and everything dropped is space. */
  function TrimStart(s: string): (r: string)
    ensures |r| <= |s| && r == s[|s| - |r|..]
    ensures r == [] || !IsJsSpace(r[0])
    ensures forall k :: 0 <= k < |s| - |r| ==> IsJsSpace(s[k])
  {
    if s != [] && IsJsSpace(s[0]) then TrimStart(s[1..]) else s
  }

  /** Drops trailing white space: the result is a prefix of `s` that ends
      with a non-space (or is empty), and everything dropped is space. */
  function TrimEnd(s: string): (r: string)
    ensures |r| <= |s| && r == s[..|r|]
    ensures r == [] || !IsJsSpace(r[|r| - 1])
    ensures forall k :: |r| <= k < |s| ==> IsJsSpace(s[k])
  {
    if s != [] && IsJsSpace(s[|s| - 1]) then TrimEnd(s[..|s| - 1]) else s
  }

  /** String.prototype.trim. */
  function Trim(s: string): string {
    TrimEnd(TrimStart(s))
  }

  /** `s.trim()` is empty exactly when every character of `s` is white space. */
  lemma TrimEmptyIffBlank(s: string)
    ensures Trim(s) == [] <==> forall k :: 0 <= k < |s| ==> IsJsSpace(s[k])
  {
  }

  /** ASCII case mapping (String.prototype.toLowerCase on ASCII input). */
  function LowerChar(c: char): char {
    if 'A' <= c <= 'Z' then (c as int + 32) as char else c
  }

  function UpperChar(c: char): char {
    if 'a' <= c <= 'z' then (c as int - 32) as char else c
  }

  function ToLower(s: string): (r: string)
    ensures |r| == |s| && forall k :: 0 <= k < |s| ==> r[k] == LowerChar(s[k])
  {
    seq(|s|, k requires 0 <= k < |s| => LowerChar(s[k]))
  }

  function ToUpper(s: string): (r: string)
    ensures |r| == |s| && forall k :: 0 <= k < |s| ==> r[k] == UpperChar(s[k])
  {
    seq(|s|, k requires 0 <= k < |s| => UpperChar(s[k]))
  }

  // ---------------------------------------------------------------------------
  // Numbers and their decimal text
  // ---------------------------------------------------------------------------

  predicate IsDigit(c: char) {
    '0' <= c <= '9'
  }

  predicate AllDigits(s: string) {
    forall k :: 0 <= k < |s| ==> IsDigit(s[k])
  }

  function DigitChar(d: nat): (c: char)
    requires d < 10
    ensures IsDigit(c) && c as int - '0' as int == d
  {
    ('0' as int + d) as char
  }

  function DigitValue(c: char): (d: nat)
    requires IsDigit(c)
    ensures d < 10
  {
    c as int - '0' as int
  }

  /** Decimal text of a natural number, without leading zeros. */
  function NatToString(n: nat): (r: string)
    ensures |r| >= 1 && AllDigits(r)
    ensures r[0] == '0' ==> n == 0
    decreases n
  {
    if n < 10 then [DigitChar(n)] else NatToString(n / 10) + [DigitChar(n % 10)]
  }

  /** String(n) for an integral number. */
  function IntToString(i: int): string {
    if i < 0 then "-" + NatToString(-i) else NatToString(i)
  }

  /** The value of a string of decimal digits, read left to right. */
  function DigitsValue(d: string): nat
    requires AllDigits(d)
  {
    if d == [] then 0 else DigitsValue(d[..|d| - 1]) * 10 + DigitValue(d[|d| - 1])
  }

  /** The longest prefix of `s` made of decimal digits. */
  function LeadingDigits(s: string): (r: string)
    ensures |r| <= |s| && r == s[..|r|] && AllDigits(r)
    ensures |r| < |s| ==> !IsDigit(s[|r|])
  {
    if s != [] && IsDigit(s[0]) then [s[0]] + LeadingDigits(s[1..]) else []
  }

  /** parseInt(s, 10): skip leading white space, read an optional sign and the
      longest run of digits; no digits at all gives NaN (None). */
  function ParseIntText(s: string): Option<int> {
    var t := TrimStart(s);
    var neg := t != [] && t[0] == '-';
    var body := if t != [] && (t[0] == '-' || t[0] == '+') then t[1..] else t;
    var ds := LeadingDigits(body);
    if ds == [] then None
    else if neg then Some(-(DigitsValue(ds) as int))
    else Some(DigitsValue(ds))
  }

  lemma {:induction false} DigitsValueOfNat(n: nat)
    ensures DigitsValue(NatToString(n)) == n
    decreases n
  {
    if n >= 10 {
      DigitsValueOfNat(n / 10);
      var s := NatToString(n);
      assert s[..|s| - 1] == NatToString(n / 10);
    }
  }

  lemma {:induction false} LeadingDigitsOfDigits(d: string, rest: string)
    requires AllDigits(d)
    requires rest == [] || !IsDigit(rest[0])
    ensures LeadingDigits(d + rest) == d
    decreases |d|
  {
    if d != [] {
      assert (d + rest)[1..] == d[1..] + rest;
      LeadingDigitsOfDigits(d[1..], rest);
    }
  }

  /** parseInt(String(i), 10) gives `i` back. */
  lemma ParseIntOfIntToString(i: int)
    ensures ParseIntText(IntToString(i)) == Some(i)
  {
    if i < 0 {
      ParseIntOfNegative(i);
    } else {
      ParseIntOfNat(i);
    }
  }

  lemma ParseIntOfNat(n: nat)
    ensures ParseIntText(NatToString(n)) == Some(n)
  {
    var d := NatToString(n);
    assert !IsJsSpace(d[0]);
    assert TrimStart(d) == d;
    LeadingDigitsOfDigits(d, []);
    assert d + [] == d;
    DigitsValueOfNat(n);
  }

  lemma ParseIntOfNegative(i: int)
    requires i < 0
    ensures ParseIntText(IntToString(i)) == Some(i)
  {
    var n: nat := -i;
    var d := NatToString(n);
    var t := "-" + d;
    assert IntToString(i) == t;
    assert !IsJsSpace(t[0]);
    assert TrimStart(t) == t;
    assert t[1..] == d;
    LeadingDigitsOfDigits(d, []);
    assert d + [] == d;
    DigitsValueOfNat(n);
  }

  /** Decimal text determines the number: String(n) is injective. */
  lemma NatToStringInjective(a: nat, b: nat)
    requires NatToString(a) == NatToString(b)
    ensures a == b
  {
    DigitsValueOfNat(a);
    DigitsValueOfNat(b);
  }

  // ---------------------------------------------------------------------------
  // Arrays
  // ---------------------------------------------------------------------------

  /** Array.prototype.findIndex as a value: the first index whose element
      satisfies `p`, or None when no element does. */
  function FirstIndex<T>(s: seq<T>, p: T -> bool): (r: Option<nat>)
    ensures r.Some? ==> r.value < |s| && p(s[r.value])
    ensures r.Some? ==> forall k :: 0 <= k < r.value ==> !p(s[k])
    ensures r.None? <==> forall k :: 0 <= k < |s| ==> !p(s[k])
  {
    if s == [] then None
    else if p(s[0]) then Some(0)
    else match FirstIndex(s[1..], p)
      case None => None
      case Some(k) => Some(k + 1)
  }

  /** Array.prototype.find / findIndex: scans left to right and stops at the
      first element that satisfies `p`. */
  method FindIndex<T>(s: seq<T>, p: T -> bool) returns (r: Option<nat>)
    ensures r == FirstIndex(s, p)
    ensures r.Some? ==> r.value < |s| && p(s[r.value]) && forall k :: 0 <= k < r.value ==> !p(s[k])
  {
    var i := 0;
    while i < |s|
      invariant 0 <= i <= |s|
      invariant forall k :: 0 <= k < i ==> !p(s[k])
    {
      if p(s[i]) {
        r := Some(i);
        FirstIndexUnique(s, p, i);
        return;
      }
      i := i + 1;
    }
    r := None;
  }

  /** Any index that satisfies `p` and is preceded only by non-matches is the first index. */
  lemma FirstIndexUnique<T>(s: seq<T>, p: T -> bool, i: nat)
    requires i < |s| && p(s[i])
    requires forall k :: 0 <= k < i ==> !p(s[k])
    ensures FirstIndex(s, p) == Some(i)
  {
  }

  /** The index where `splice(i, 1)` starts on an array of length `len`:
      a negative `i` counts from the end, and both ends are clamped. */
  function SpliceStart(i: int, len: nat): (k: nat)
    ensures k <= len
    ensures 0 <= i < len ==> k == i
    ensures -(len as int) <= i < 0 ==> k == len + i
    ensures i >= len ==> k == len
    ensures i < -(len as int) ==> k == 0
  {
    if i < 0 then (if len + i < 0 then 0 else len + i)
    else if i > len then len else i
  }

  /** `a.splice(i, 1)` as a value: the element at SpliceStart(i, |s|) is
      deleted, if there is one. */
  function SpliceRemove<T>(s: seq<T>, i: int): seq<T> {
    var k := SpliceStart(i, |s|);
    if k < |s| then s[..k] + s[k + 1..] else s
  }

  /** What `splice(i, 1)` does: for an index inside the array exactly that
      element goes and the others keep their order; past the end nothing
      changes; a negative index removes the element that far from the end. */
  lemma SpliceRemoveSpec<T>(s: seq<T>, i: int)
    ensures 0 <= i < |s| ==> |SpliceRemove(s, i)| == |s| - 1
    ensures 0 <= i < |s| ==> forall j :: 0 <= j < i ==> SpliceRemove(s, i)[j] == s[j]
    ensures 0 <= i < |s| ==> forall j :: i <= j < |s| - 1 ==> SpliceRemove(s, i)[j] == s[j + 1]
    ensures i >= |s| ==> SpliceRemove(s, i) == s
    ensures -(|s| as int) <= i < 0 ==> SpliceRemove(s, i) == SpliceRemove(s, |s| + i)
    ensures i < -(|s| as int) ==> SpliceRemove(s, i) == SpliceRemove(s, 0)
  {
  }
}
