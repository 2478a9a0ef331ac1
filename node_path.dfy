/** The parts of Node's `path` module the server and the page generator
    rely on, for absolute POSIX paths: `split("/")`, `join("/")`,
    `path.normalize` as a left-to-right resolution of segments, `path.join`,
    `path.basename` and `path.extname`. */
module NodePath {
  import opened JsBuiltins

  /** The pieces of `s` between slashes (`s.split("/")`). */
  function Split(s: string): (r: seq<string>)
    ensures |r| >= 1
  {
    if s == [] then [""]
    else
      var init := Split(s[..|s| - 1]);
      var c := s[|s| - 1];
      if c == '/' then init + [""]
      else init[..|init| - 1] + [init[|init| - 1] + [c]]
  }

  /** `segs.join("/")`. */
  function JoinSlash(segs: seq<string>): string {
    if segs == [] then ""
    else if |segs| == 1 then segs[0]
    else JoinSlash(segs[..|segs| - 1]) + "/" + segs[|segs| - 1]
  }

  predicate Slashless(segs: seq<string>) {
    forall k :: 0 <= k < |segs| ==> '/' !in segs[k]
  }

  /** Joining the pieces with slashes gives the text back. */
  lemma {:induction false} JoinSplit(s: string)
    ensures JoinSlash(Split(s)) == s
    decreases |s|
  {
    if s != [] {
      var t, c := s[..|s| - 1], s[|s| - 1];
      assert s == t + [c];
      JoinSplit(t);
      var init := Split(t);
      if c == '/' {
        SplitSnocSlash(t);
        JoinSlashSnoc(init, "");
      } else {
        SplitSnocOther(t, c);
        var n := |init|;
        assert init[..n - 1] + [init[n - 1]] == init;
        JoinSplitExtend(init[..n - 1], init[n - 1], c);
      }
    }
  }

  /** Joining one more piece adds a slash and the piece. */
  lemma JoinSlashSnoc(segs: seq<string>, x: string)
    requires segs != []
    ensures JoinSlash(segs + [x]) == JoinSlash(segs) + "/" + x
  {
    assert (segs + [x])[..|segs|] == segs;
  }

  /** Extending the last piece extends the joined text by the same character. */
  lemma JoinSplitExtend(init: seq<string>, last: string, c: char)
    ensures JoinSlash(init + [last + [c]]) == JoinSlash(init + [last]) + [c]
  {
    if init == [] {
      assert init + [last + [c]] == [last + [c]];
      assert init + [last] == [last];
    } else {
      JoinSlashSnoc(init, last + [c]);
      JoinSlashSnoc(init, last);
      Associative(JoinSlash(init) + "/", last, [c]);
    }
  }

  /** No piece holds a slash. */
  lemma {:induction false} SplitSlashless(s: string)
    ensures Slashless(Split(s))
    decreases |s|
  {
    if s != [] {
      var init := Split(s[..|s| - 1]);
      SplitSlashless(s[..|s| - 1]);
      var c := s[|s| - 1];
      if c != '/' {
        var last := init[|init| - 1];
        assert '/' !in last;
        assert forall i :: 0 <= i < |last + [c]| ==> (last + [c])[i] != '/' by {
          forall i | 0 <= i < |last + [c]| ensures (last + [c])[i] != '/' {
            if i < |last| { assert (last + [c])[i] == last[i]; }
          }
        }
      }
    }
  }

  /** One more character: a slash starts a new piece, anything else extends
      the last one. */
  lemma SplitSnoc(t: string, c: char)
    ensures var init := Split(t);
      Split(t + [c]) == if c == '/' then init + [""] else init[..|init| - 1] + [init[|init| - 1] + [c]]
  {
    assert (t + [c])[..|t|] == t;
  }

  lemma SplitSnocSlash(t: string)
    ensures Split(t + ['/']) == Split(t) + [""]
  {
    SplitSnoc(t, '/');
  }

  lemma SplitSnocOther(t: string, c: char)
    requires c != '/'
    ensures Split(t + [c]) == Split(t)[..|Split(t)| - 1] + [Split(t)[|Split(t)| - 1] + [c]]
  {
    SplitSnoc(t, c);
  }

  /** Splitting across a slash: the pieces of both sides, side by side. */
  lemma {:induction false} SplitConcat(a: string, b: string)
    ensures Split(a + "/" + b) == Split(a) + Split(b)
    decreases |b|
  {
    if b == [] {
      SplitSnoc(a, '/');
      assert a + "/" + b == a + ['/'];
      assert Split(b) == [""];
    } else {
      var b' := b[..|b| - 1];
      var c := b[|b| - 1];
      assert b == b' + [c];
      assert a + "/" + b == (a + "/" + b') + [c];
      SplitConcat(a, b');
      SplitConcatStep(a, b', c);
    }
  }

  lemma SplitConcatStep(a: string, b': string, c: char)
    requires Split(a + "/" + b') == Split(a) + Split(b')
    ensures Split((a + "/" + b') + [c]) == Split(a) + Split(b' + [c])
  {
    if c == '/' {
      SplitSnocSlash(a + "/" + b');
      SplitSnocSlash(b');
      Associative(Split(a), Split(b'), [""]);
    } else {
      SplitConcatOther(Split(a), Split(b'), c);
      SplitSnocOther(a + "/" + b', c);
      SplitSnocOther(b', c);
    }
  }

  lemma Associative<T>(x: seq<T>, y: seq<T>, z: seq<T>)
    ensures x + (y + z) == (x + y) + z
  {
  }

  /** Extending the last piece of `left + init` extends the last of `init`. */
  lemma SplitConcatOther(left: seq<string>, init: seq<string>, c: char)
    requires |init| >= 1
    ensures var whole := left + init;
      whole[..|whole| - 1] + [whole[|whole| - 1] + [c]]
      == left + (init[..|init| - 1] + [init[|init| - 1] + [c]])
  {
    var whole := left + init;
    assert whole[..|whole| - 1] == left + init[..|init| - 1];
    assert whole[|whole| - 1] == init[|init| - 1];
    Associative(left, init[..|init| - 1], [init[|init| - 1] + [c]]);
  }

  lemma {:induction false} SplitNoSlash(x: string)
    requires '/' !in x
    ensures Split(x) == [x]
    decreases |x|
  {
    if x != [] {
      SplitNoSlash(x[..|x| - 1]);
      assert x[..|x| - 1] + [x[|x| - 1]] == x;
    }
  }

  lemma {:induction false} SplitSlashThen(x: string)
    requires '/' !in x
    ensures Split("/" + x) == ["", x]
    decreases |x|
  {
    if x == [] {
      assert "/" + x == "/";
      assert "/"[..0] == "";
    } else {
      var x' := x[..|x| - 1];
      assert ("/" + x)[..|"/" + x| - 1] == "/" + x';
      SplitSlashThen(x');
      assert x' + [x[|x| - 1]] == x;
    }
  }

  /** Splitting at a first slash-free piece. */
  lemma SplitCons(x: string, rest: string)
    requires '/' !in x
    ensures Split(x + "/" + rest) == [x] + Split(rest)
  {
    SplitConcat(x, rest);
    SplitNoSlash(x);
  }

  lemma SlashlessConcat(x: string, y: string)
    requires '/' !in x && '/' !in y
    ensures '/' !in x + y
  {
    forall i | 0 <= i < |x + y| ensures (x + y)[i] != '/' {
      if i < |x| { assert (x + y)[i] == x[i]; } else { assert (x + y)[i] == y[i - |x|]; }
    }
  }

  /** A segment that names a directory entry: not empty, "." or "..". */
  predicate PlainSegment(x: string) {
    x != "" && x != "." && x != ".."
  }

  predicate AllPlain(segs: seq<string>) {
    forall k :: 0 <= k < |segs| ==> PlainSegment(segs[k])
  }

  /** Plain, slash-free segments: what a normalised absolute path is made of. */
  predicate Clean(segs: seq<string>) {
    AllPlain(segs) && Slashless(segs)
  }

  /** Every piece is empty or a plain segment. */
  predicate EmptyOrPlain(pieces: seq<string>) {
    forall k :: 0 <= k < |pieces| ==> pieces[k] == "" || PlainSegment(pieces[k])
  }

  /** No piece is "..". */
  predicate NoParent(pieces: seq<string>) {
    forall k :: 0 <= k < |pieces| ==> pieces[k] != ".."
  }

  /** One step of path.normalize on an absolute path: empty and "." segments
      vanish, ".." drops the last kept segment (and nothing at the root). */
  function StepSegment(kept: seq<string>, x: string): seq<string> {
    if x == "" || x == "." then kept
    else if x == ".." then (if kept == [] then [] else kept[..|kept| - 1])
    else kept + [x]
  }

  /** The segments kept after resolving `segs` left to right from `kept`. */
  function Resolve(kept: seq<string>, segs: seq<string>): seq<string> {
    if segs == [] then kept
    else StepSegment(Resolve(kept, segs[..|segs| - 1]), segs[|segs| - 1])
  }

  /** Resolving slash-free pieces from clean segments keeps them clean. */
  lemma {:induction false} ResolveClean(kept: seq<string>, segs: seq<string>)
    requires Clean(kept) && Slashless(segs)
    ensures Clean(Resolve(kept, segs))
    decreases |segs|
  {
    if segs != [] {
      ResolveClean(kept, segs[..|segs| - 1]);
    }
  }

  lemma {:induction false} ResolveConcat(kept: seq<string>, a: seq<string>, b: seq<string>)
    ensures Resolve(kept, a + b) == Resolve(Resolve(kept, a), b)
    decreases |b|
  {
    if b == [] {
      assert a + b == a;
    } else {
      assert (a + b)[..|a + b| - 1] == a + b[..|b| - 1];
      ResolveConcat(kept, a, b[..|b| - 1]);
    }
  }

  /** Resolving only plain segments appends them. */
  lemma {:induction false} ResolvePlain(kept: seq<string>, segs: seq<string>)
    requires AllPlain(segs)
    ensures Resolve(kept, segs) == kept + segs
    decreases |segs|
  {
    if segs != [] {
      ResolvePlain(kept, segs[..|segs| - 1]);
      assert kept + segs[..|segs| - 1] + [segs[|segs| - 1]] == kept + segs;
    }
  }

  /** Resolving segments none of which is ".." keeps what was kept in front. */
  lemma {:induction false} ResolveNoParent(kept: seq<string>, segs: seq<string>)
    requires forall k :: 0 <= k < |segs| ==> segs[k] != ".."
    ensures |Resolve(kept, segs)| >= |kept| && Resolve(kept, segs)[..|kept|] == kept
    decreases |segs|
  {
    if segs != [] {
      ResolveNoParent(kept, segs[..|segs| - 1]);
    }
  }

  lemma RootPieces(root: seq<string>)
    requires AllPlain(root)
    ensures Resolve([], [""] + root) == root
  {
    ResolveConcat([], [""], root);
    assert [""][..0] == [];
    ResolvePlain([], root);
  }

  /** The tail of a list of empty or plain pieces holds no "..". */
  lemma TailNoParent(front: seq<string>, rest: seq<string>)
    requires EmptyOrPlain(front + rest)
    ensures NoParent(rest)
  {
    forall k | 0 <= k < |rest| ensures rest[k] != ".." {
      assert rest[k] == (front + rest)[|front| + k];
    }
  }

  /** The text of an absolute path from its segments. */
  function PathText(segs: seq<string>): string {
    "/" + JoinSlash(segs)
  }

  lemma {:induction false} SplitPathText(segs: seq<string>)
    requires segs != [] && Slashless(segs)
    ensures Split(PathText(segs)) == [""] + segs
    decreases |segs|
  {
    if |segs| == 1 {
      assert PathText(segs) == "/" + segs[0];
      SplitSlashThen(segs[0]);
    } else {
      var init := segs[..|segs| - 1];
      var last := segs[|segs| - 1];
      assert PathText(segs) == PathText(init) + "/" + last;
      SplitConcat(PathText(init), last);
      SplitPathText(init);
      SplitNoSlash(last);
      AppendLast([""], segs);
    }
  }

  /** Putting the last element back after the rest gives the sequence again,
      behind any front. */
  lemma AppendLast<T>(front: seq<T>, s: seq<T>)
    requires s != []
    ensures front + s[..|s| - 1] + [s[|s| - 1]] == front + s
  {
    assert s[..|s| - 1] + [s[|s| - 1]] == s;
    Associative(front, s[..|s| - 1], [s[|s| - 1]]);
  }

  lemma {:induction false} JoinSlashConcat(a: seq<string>, b: seq<string>)
    requires a != [] && b != []
    ensures JoinSlash(a + b) == JoinSlash(a) + "/" + JoinSlash(b)
    decreases |b|
  {
    if |b| == 1 {
      assert (a + b)[..|a + b| - 1] == a;
    } else {
      var b' := b[..|b| - 1];
      assert (a + b)[..|a + b| - 1] == a + b';
      JoinSlashConcat(a, b');
    }
  }

  /** path.normalize of an absolute path: resolved segments, with the
      trailing slash kept when the input had one and the result is not "/". */
  function NormalizeAbs(p: string): string {
    var segs := Resolve([], Split(p));
    if segs == [] then "/"
    else PathText(segs) + (if p != [] && p[|p| - 1] == '/' then "/" else "")
  }

  /** `path.join` before normalising: the two parts with a slash between,
      or the base alone when the target is empty. */
  function Joined(base: string, target: string): string {
    if target == "" then base else base + "/" + target
  }

  /** `path.normalize(path.join(base, target))` for an absolute base. */
  function JoinPath(base: string, target: string): string {
    NormalizeAbs(Joined(base, target))
  }

  lemma PathTextPieces(segs: seq<string>, trailing: bool)
    requires segs != [] && Clean(segs)
    ensures EmptyOrPlain(Split(PathText(segs) + (if trailing then "/" else "")))
  {
    SplitPathText(segs);
    var pieces := [""] + segs;
    assert EmptyOrPlain(pieces) by {
      forall k | 0 <= k < |pieces|
        ensures pieces[k] == "" || PlainSegment(pieces[k])
      {
        if 0 < k { assert pieces[k] == segs[k - 1]; }
      }
    }
    if trailing {
      assert PathText(segs) + "/" == PathText(segs) + "/" + "";
      SplitConcat(PathText(segs), "");
      assert Split("") == [""];
      assert EmptyOrPlain(pieces + [""]) by {
        forall k | 0 <= k < |pieces + [""]|
          ensures (pieces + [""])[k] == "" || PlainSegment((pieces + [""])[k])
        {
          if k < |pieces| { assert (pieces + [""])[k] == pieces[k]; }
        }
      }
    } else {
      assert PathText(segs) + "" == PathText(segs);
    }
  }

  /** The pieces of a normalised absolute path are clean segments, apart from
      the empty pieces around its slashes. */
  lemma NormalizedSegments(q: string)
    ensures EmptyOrPlain(Split(NormalizeAbs(q)))
  {
    var segs := Resolve([], Split(q));
    SplitSlashless(q);
    ResolveClean([], Split(q));
    if segs == [] {
      assert NormalizeAbs(q) == "/" + "";
      SplitSlashThen("");
    } else {
      PathTextPieces(segs, q != [] && q[|q| - 1] == '/');
    }
  }

  /** Resolving the base's own pieces gives back its segments. */
  lemma ResolveBase(root: seq<string>)
    requires root != [] && Clean(root)
    ensures Split(PathText(root)) == [""] + root
    ensures Resolve([], Split(PathText(root))) == root
  {
    SplitPathText(root);
    ResolveConcat([], [""], root);
    ResolvePlain([], root);
  }

  /** The last segment of a path: everything after its last "/". */
  function BaseName(p: string): (name: string)
    ensures EndsWith(p, name) && '/' !in name
    ensures |name| < |p| ==> p[|p| - |name| - 1] == '/'
  {
    if p == [] || p[|p| - 1] == '/' then []
    else BaseName(p[..|p| - 1]) + [p[|p| - 1]]
  }

  lemma {:induction false} BaseNameAfterSlash(a: string, name: string)
    requires '/' !in name
    ensures BaseName(a + "/" + name) == name
    decreases |name|
  {
    if name == [] {
      assert a + "/" + name == a + "/";
    } else {
      var init := name[..|name| - 1];
      assert (a + "/" + name)[..|a + "/" + name| - 1] == a + "/" + init;
      BaseNameAfterSlash(a, init);
      assert init + [name[|name| - 1]] == name;
    }
  }

  /** Normalising keeps the last segment of a path that ends in a plain name. */
  lemma NormalizeKeepsName(a: string, n: string)
    requires PlainSegment(n) && '/' !in n
    ensures BaseName(NormalizeAbs(a + "/" + n)) == n
  {
    var q := a + "/" + n;
    SplitConcat(a, n);
    SplitNoSlash(n);
    ResolveConcat([], Split(a), [n]);
    assert [n][..0] == [];
    var front := Resolve([], Split(a));
    var kept := front + [n];
    assert Resolve([], Split(q)) == kept;
    assert q[|q| - 1] == n[|n| - 1] != '/';
    assert NormalizeAbs(q) == PathText(kept);
    if front == [] {
      assert PathText(kept) == "" + "/" + n;
      BaseNameAfterSlash("", n);
    } else {
      assert kept[..|kept| - 1] == front;
      assert PathText(kept) == ("/" + JoinSlash(front)) + "/" + n;
      BaseNameAfterSlash("/" + JoinSlash(front), n);
    }
  }

  /** The index of the last "." in `s`. */
  function LastDot(s: string): (r: Option<nat>)
    ensures r.Some? ==> r.value < |s| && s[r.value] == '.' && '.' !in s[r.value + 1..]
    ensures r.None? ==> '.' !in s
  {
    if s == [] then None
    else if s[|s| - 1] == '.' then Some(|s| - 1)
    else match LastDot(s[..|s| - 1])
      case None => None
      case Some(k) => assert s[k + 1..] == s[..|s| - 1][k + 1..] + [s[|s| - 1]]; Some(k)
  }

  /** The last "." of a name is the one before a dot-free ending. */
  lemma {:induction false} LastDotBefore(stem: string, ending: string)
    requires '.' !in ending
    ensures LastDot(stem + "." + ending) == Some(|stem|)
    decreases |ending|
  {
    var s := stem + "." + ending;
    if ending != [] {
      var e' := ending[..|ending| - 1];
      assert s[..|s| - 1] == stem + "." + e';
      LastDotBefore(stem, e');
    } else {
      assert s == stem + ".";
    }
  }

  /** The extension of one segment: from its last "." on, or "" when the
      segment has no "." after its first character. */
  function SegmentExt(name: string): (e: string)
    ensures e == "" || (e[0] == '.' && EndsWith(name, e) && '.' !in e[1..])
  {
    match LastDot(name)
    case Some(k) =>
      if k > 0 then
        assert name[k..][1..] == name[k + 1..];
        name[k..]
      else ""
    case None => ""
  }

  /** A non-empty stem, a dot and a dot-free ending: the extension is the
      dot and the ending. */
  lemma ExtensionOf(stem: string, ending: string)
    requires stem != [] && '.' !in ending
    ensures SegmentExt(stem + "." + ending) == "." + ending
  {
    LastDotBefore(stem, ending);
    assert (stem + "." + ending)[|stem|..] == "." + ending;
  }

  /** `path.extname`: the extension of the last segment. Node's version
      also skips trailing slashes and gives "" for a ".." segment; a
      normalised path ending in a file name has neither. */
  function ExtName(p: string): (e: string)
    ensures e == "" || (e[0] == '.' && '.' !in e[1..] && '/' !in e)
  {
    var name := BaseName(p);
    var e := SegmentExt(name);
    assert e != "" ==> forall i :: 0 <= i < |e| ==> e[i] == name[|name| - |e| + i];
    e
  }

  lemma ExtNameOf(p: string)
    ensures ExtName(p) == SegmentExt(BaseName(p))
  {
  }
}
