/**
 * The route matcher of lib/qroute.js.
 *
 * A `Router` (the source's `QRoute` object) keeps literal routes in an
 * exact-key table and parametric routes (those containing `/:`) in a list
 * kept in registration order. A parametric template is compiled into a
 * token list: `Lit(text)` for literal text and `Cap(name)` for a `/:name`
 * segment. The source turns the same token list into a regular expression
 * string (`BuildCapturingRegex`); the model matches on the tokens directly
 * (`MatchTokens`): a capture is `/` followed by the maximal run of non-`/`
 * characters, and what is left after the last token must be empty or start
 * with `/` or `?`.
 */
module QRoute {
  import opened Common
  import opened JsStrings

  datatype Token = Lit(text: string) | Cap(name: string)

  // ---------------------------------------------------------------------
  // _regexEscape

  /** The characters `_regexEscape` backslash-escapes. */
  predicate IsMeta(c: char)
  {
    c == '.' || c == '[' || c == '(' || c == '*' || c == '+' || c == '?' || c == '{'
    || c == '|' || c == '\\' || c == '^' || c == '$' || c == '=' || c == ')'
  }

  function MetaCount(s: string): nat
  {
    if s == [] then 0 else (if IsMeta(s[0]) then 1 else 0) + MetaCount(s[1..])
  }

  /** `_regexEscape(str)`: a backslash before every metacharacter. */
  function RegexEscape(s: string): (r: string)
    ensures |r| == |s| + MetaCount(s)
  {
    if s == [] then ""
    else (if IsMeta(s[0]) then ['\\', s[0]] else [s[0]]) + RegexEscape(s[1..])
  }

  /**
   * Reads regular-expression text made only of plain characters and
   * escaped metacharacters, giving the string it matches; `None` when the
   * text holds an unescaped metacharacter or a backslash that does not
   * escape one.
   */
  function ParseLiteral(r: string): Option<string>
  {
    if r == [] then Some("")
    else if r[0] == '\\' then
      if |r| >= 2 && IsMeta(r[1]) then
        match ParseLiteral(r[2..])
        case None => None
        case Some(rest) => Some([r[1]] + rest)
      else None
    else if IsMeta(r[0]) then None
    else
      match ParseLiteral(r[1..])
      case None => None
      case Some(rest) => Some([r[0]] + rest)
  }

  /**
   * The escaped text is a well-formed literal pattern that stands for
   * exactly the input: removing the inserted backslashes restores it, and
   * no metacharacter is left unescaped.
   */
  lemma {:induction false} EscapeParses(s: string)
    ensures ParseLiteral(RegexEscape(s)) == Some(s)
  {
    if s != [] {
      EscapeParses(s[1..]);
      var r := RegexEscape(s);
      if IsMeta(s[0]) {
        assert r[0] == '\\' && r[1] == s[0] && r[2..] == RegexEscape(s[1..]);
      } else {
        assert r[0] == s[0] && r[1..] == RegexEscape(s[1..]);
      }
      assert s == [s[0]] + s[1..];
    }
  }

  /** Text without metacharacters is left as it is. */
  lemma {:induction false} EscapePlain(s: string)
    requires forall i :: 0 <= i < |s| ==> !IsMeta(s[i])
    ensures RegexEscape(s) == s
  {
    if s != [] {
      EscapePlain(s[1..]);
      assert s == [s[0]] + s[1..];
    }
  }

  // ---------------------------------------------------------------------
  // _buildCapturingRegex

  /** The group emitted for each `/:name` segment (the source literal '\/([^/]*)'). */
  const CapGroup: string := "/([^/]*)"
  /** The trailer: the path ends here or continues past `/` or `?`. */
  const TailGroup: string := "([/?].*)?$"

  /** Index of the first `/` in `s`, or `|s|`: the extent of `[^/]*`. */
  function SegmentEnd(s: string): (e: nat)
    ensures e <= |s| && '/' !in s[..e]
    ensures e < |s| ==> s[e] == '/'
  {
    var k := IndexOfChar(s, '/');
    if k < 0 then |s| else k
  }

  /**
   * The index of the first `/:` in `t` at or after `i`, or -1: where the
   * source's expression for a `/:name` segment starts to match.
   */
  function CapMarkFrom(t: string, i: nat): (r: int)
    requires i <= |t|
    ensures r == -1 || (i <= r && r + 2 <= |t| && t[r] == '/' && t[r + 1] == ':')
    decreases |t| - i
  {
    if i + 1 >= |t| then -1
    else if t[i] == '/' && t[i + 1] == ':' then i
    else CapMarkFrom(t, i + 1)
  }

  function CapMark(t: string): int
  {
    CapMarkFrom(t, 0)
  }

  lemma {:induction false} CapMarkFromIsIndexOf(t: string, i: nat)
    requires i <= |t|
    ensures CapMarkFrom(t, i) == IndexOfFrom(t, "/:", i)
    decreases |t| - i
  {
    assert OccursAt(t, "/:", i) <==> i + 2 <= |t| && t[i] == '/' && t[i + 1] == ':' by {
      if i + 2 <= |t| && t[i] == '/' && t[i + 1] == ':' {
        assert t[i..i + 2] == "/:";
      }
    }
    if i + 1 < |t| && !(t[i] == '/' && t[i + 1] == ':') && i + 2 < |t| {
      CapMarkFromIsIndexOf(t, i + 1);
    }
  }

  /** Scanning for the first capture and `indexOf('/:')` agree. */
  lemma CapMarkIsIndexOf(t: string)
    ensures CapMark(t) == IndexOf(t, "/:")
  {
    CapMarkFromIsIndexOf(t, 0);
  }

  /**
   * The token list of a template: literal text up to the first `/:`
   * (omitted when empty), a capture named by the text after `/:` up to the
   * next `/`, then the rest likewise; the final literal is always present.
   */
  function Compile(t: string): seq<Token>
    decreases |t|
  {
    var k := CapMark(t);
    if k < 0 then [Lit(t)]
    else
      var rest := t[k + 2..];
      var e := SegmentEnd(rest);
      (if k > 0 then [Lit(t[..k])] else []) + [Cap(rest[..e])] + Compile(rest[e..])
  }

  /** The template text a token list stands for. */
  function Template(toks: seq<Token>): string
  {
    if toks == [] then ""
    else match toks[0]
      case Lit(t) => t + Template(toks[1..])
      case Cap(n) => "/:" + n + Template(toks[1..])
  }

  /** The capture names, left to right. */
  function Names(toks: seq<Token>): seq<string>
  {
    if toks == [] then []
    else match toks[0]
      case Lit(_) => Names(toks[1..])
      case Cap(n) => [n] + Names(toks[1..])
  }

  /** The middle of the regular expression source: escaped literals and capture groups. */
  function Body(toks: seq<Token>): string
  {
    if toks == [] then ""
    else match toks[0]
      case Lit(t) => RegexEscape(t) + Body(toks[1..])
      case Cap(_) => CapGroup + Body(toks[1..])
  }

  /** The regular expression source the source builds for a token list. */
  function PatternSource(toks: seq<Token>): string
  {
    "^" + Body(toks) + TailGroup
  }

  lemma {:induction false} TemplateAppend(a: seq<Token>, b: seq<Token>)
    ensures Template(a + b) == Template(a) + Template(b)
  {
    if a == [] {
      assert a + b == b;
    } else {
      assert (a + b)[0] == a[0] && (a + b)[1..] == a[1..] + b;
      TemplateAppend(a[1..], b);
    }
  }


  lemma {:induction false} NamesAppend(a: seq<Token>, b: seq<Token>)
    ensures Names(a + b) == Names(a) + Names(b)
  {
    if a == [] {
      assert a + b == b;
    } else {
      assert (a + b)[0] == a[0] && (a + b)[1..] == a[1..] + b;
      NamesAppend(a[1..], b);
    }
  }


  lemma {:induction false} BodyAppend(a: seq<Token>, b: seq<Token>)
    ensures Body(a + b) == Body(a) + Body(b)
  {
    if a == [] {
      assert a + b == b;
    } else {
      assert (a + b)[0] == a[0] && (a + b)[1..] == a[1..] + b;
      BodyAppend(a[1..], b);
    }
  }


  /** One step of compiling: the tokens before and including the first capture. */
  lemma CompileStep(t: string, k: int)
    requires k == CapMark(t) && k >= 0
    ensures var rest := t[k + 2..];
            var e := SegmentEnd(rest);
            var pre := if k > 0 then [Lit(t[..k])] else [];
            Compile(t) == pre + [Cap(rest[..e])] + Compile(rest[e..])
            && Body(pre) == (if k > 0 then RegexEscape(t[..k]) else "")
            && Names(pre) == []
            && Template(pre) == t[..k]
            && t == t[..k] + "/:" + rest
  {
    assert t[k..k + 2] == "/:";
    assert t == t[..k] + t[k..k + 2] + t[k + 2..];
  }

  /** Compiling loses nothing: the tokens spell the template back. */
  lemma {:induction false} TemplateRoundTrip(t: string)
    ensures Template(Compile(t)) == t
    decreases |t|
  {
    var k := CapMark(t);
    if k >= 0 {
      var rest := t[k + 2..];
      TemplateRoundTrip(rest[SegmentEnd(rest)..]);
      TemplateStep(t, k);
    }
  }

  lemma TemplateStep(t: string, k: int)
    requires k == CapMark(t) && k >= 0
    requires var rest := t[k + 2..]; Template(Compile(rest[SegmentEnd(rest)..])) == rest[SegmentEnd(rest)..]
    ensures Template(Compile(t)) == t
  {
    var rest := t[k + 2..];
    var e := SegmentEnd(rest);
    var pre := if k > 0 then [Lit(t[..k])] else [];
    CompileStep(t, k);
    TemplateCapStep(pre, rest[..e], Compile(rest[e..]));
    SplitAt(rest, e);
    Regroup(t[..k], rest[..e], rest[e..], t, rest);
  }

  lemma MarkPrefix(n: string, r: string)
    ensures CapMark("/:" + n + r) == 0 && ("/:" + n + r)[2..] == n + r
  {
    var t := "/:" + n + r;
    assert t[0] == '/' && t[1] == ':';
  }

  lemma ConcatSlices(a: string, b: string)
    ensures (a + b)[..|a|] == a && (a + b)[|a|..] == b
  {
  }

  lemma SplitAt(s: string, i: nat)
    requires i <= |s|
    ensures s == s[..i] + s[i..]
  {
  }

  lemma Regroup(a: string, n: string, r: string, t: string, rest: string)
    requires t == a + "/:" + rest && rest == n + r
    ensures a + "/:" + n + r == t
  {
  }



  lemma TemplateCapStep(pre: seq<Token>, n: string, tl: seq<Token>)
    ensures Template(pre + [Cap(n)] + tl) == Template(pre) + "/:" + n + Template(tl)
  {
    TemplateAppend(pre + [Cap(n)], tl);
    TemplateAppend(pre, [Cap(n)]);
    assert Template([Cap(n)]) == "/:" + n;
  }



  /** Every capture name is free of `/`. */
  lemma {:induction false} NamesHaveNoSlash(t: string)
    ensures forall i :: 0 <= i < |Names(Compile(t))| ==> '/' !in Names(Compile(t))[i]
    decreases |t|
  {
    var k := CapMark(t);
    if k >= 0 {
      var rest := t[k + 2..];
      var e := SegmentEnd(rest);
      var pre := if k > 0 then [Lit(t[..k])] else [];
      CompileStep(t, k);
      NamesHaveNoSlash(rest[e..]);
      NamesAppend(pre + [Cap(rest[..e])], Compile(rest[e..]));
      NamesAppend(pre, [Cap(rest[..e])]);
      assert Names(Compile(t)) == [rest[..e]] + Names(Compile(rest[e..]));
    }
  }

  /** A template with `/:` compiles to at least one capture. */
  lemma CompileHasCapture(t: string)
    requires CapMark(t) >= 0
    ensures |Names(Compile(t))| >= 1
  {
    var k := CapMark(t);
    var rest := t[k + 2..];
    var e := SegmentEnd(rest);
    var pre := if k > 0 then [Lit(t[..k])] else [];
    CompileStep(t, k);
    NamesAppend(pre + [Cap(rest[..e])], Compile(rest[e..]));
    NamesAppend(pre, [Cap(rest[..e])]);
  }

  /**
   * `_buildCapturingRegex(routeName)`: the loop consumes the template up to
   * each `/:name`, appending the escaped literal text and a capture group to
   * the pattern and the name to `names`; the remainder is escaped and the
   * trailer appended.
   */
  method BuildCapturingRegex(routeName: string) returns (patt: string, names: seq<string>)
    ensures patt == PatternSource(Compile(routeName))
    ensures names == Names(Compile(routeName))
  {
    var rn := routeName;
    names := [];
    patt := "^";
    var k := CapMark(rn);
    while k >= 0
      invariant k == CapMark(rn)
      invariant patt + Body(Compile(rn)) == "^" + Body(Compile(routeName))
      invariant names + Names(Compile(rn)) == Names(Compile(routeName))
      decreases |rn|
    {
      var rest := rn[k + 2..];
      var e := SegmentEnd(rest);
      ghost var p0 := patt;
      CompileStepBodyNames(rn, k);
      if k > 0 {
        patt := patt + RegexEscape(rn[..k]);
      }
      BodyAlgebra(p0, if k > 0 then RegexEscape(rn[..k]) else "", patt,
                  Body(Compile(rn)), Body(Compile(rest[e..])), "^" + Body(Compile(routeName)));
      NamesAlgebra(names, rest[..e], Names(Compile(rn)), Names(Compile(rest[e..])), Names(Compile(routeName)));
      patt := patt + CapGroup;
      names := names + [rest[..e]];
      rn := rest[e..];
      k := CapMark(rn);
    }
    CompileNoCap(rn);
    patt := patt + RegexEscape(rn);
    patt := patt + TailGroup;
  }

  /** One step of compiling, seen through `Body` and `Names`. */
  lemma CompileStepBodyNames(t: string, k: int)
    requires k == CapMark(t) && k >= 0
    ensures var rest := t[k + 2..];
            var e := SegmentEnd(rest);
            && Body(Compile(t)) == (if k > 0 then RegexEscape(t[..k]) else "") + CapGroup + Body(Compile(rest[e..]))
            && Names(Compile(t)) == [rest[..e]] + Names(Compile(rest[e..]))
  {
    var rest := t[k + 2..];
    var e := SegmentEnd(rest);
    var pre := if k > 0 then [Lit(t[..k])] else [];
    CompileStep(t, k);
    BodyCapStep(pre, rest[..e], Compile(rest[e..]));
    NamesCapStep(pre, rest[..e], Compile(rest[e..]));
  }

  lemma BodyCapStep(pre: seq<Token>, n: string, tl: seq<Token>)
    ensures Body(pre + [Cap(n)] + tl) == Body(pre) + CapGroup + Body(tl)
  {
    BodyAppend(pre + [Cap(n)], tl);
    BodyAppend(pre, [Cap(n)]);
    assert Body([Cap(n)]) == CapGroup;
  }

  lemma NamesCapStep(pre: seq<Token>, n: string, tl: seq<Token>)
    requires Names(pre) == []
    ensures Names(pre + [Cap(n)] + tl) == [n] + Names(tl)
  {
    NamesAppend(pre + [Cap(n)], tl);
    NamesAppend(pre, [Cap(n)]);
    assert Names([Cap(n)]) == [n];
  }

  lemma CompileNoCap(t: string)
    requires CapMark(t) < 0
    ensures Body(Compile(t)) == RegexEscape(t) && Names(Compile(t)) == []
  {
    assert Compile(t) == [Lit(t)];
    assert Body([Lit(t)]) == RegexEscape(t) + Body([]);
  }

  lemma BodyAlgebra(p0: string, lit: string, p1: string, b: string, b1: string, w: string)
    requires p0 + b == w && b == lit + CapGroup + b1 && p1 == p0 + lit
    ensures p1 + CapGroup + b1 == w
  {
  }

  lemma NamesAlgebra(names: seq<string>, n: string, ns: seq<string>, ns1: seq<string>, w: seq<string>)
    requires names + ns == w && ns == [n] + ns1
    ensures names + [n] + ns1 == w
  {
  }

  /** The compiled source starts with `^` and ends with the trailer. */
  lemma PatternShape(t: string)
    ensures var p := PatternSource(Compile(t));
            |p| >= 1 + |TailGroup| && p[0] == '^' && p[|p| - |TailGroup|..] == TailGroup
  {
    var b := Body(Compile(t));
    var p := PatternSource(Compile(t));
    EndsWith("^" + b, TailGroup);
  }

  /**
   * The capturing groups of regular-expression text: every `(` that is not
   * escaped, not inside a character class and not the start of a `(?`
   * group. `inClass` says whether the text starts inside `[...]`.
   */
  function Groups(r: string, inClass: bool): nat
    decreases |r|
  {
    if r == [] then 0
    else if r[0] == '\\' && |r| >= 2 then Groups(r[2..], inClass)
    else if inClass then Groups(r[1..], r[0] != ']')
    else if r[0] == '[' then Groups(r[1..], true)
    else if r[0] == '(' && !(|r| >= 2 && r[1] == '?') then 1 + Groups(r[1..], false)
    else Groups(r[1..], false)
  }

  /**
   * The compiled source has one capturing group per name, then the
   * trailer's group: `match[j + 1]` is the capture for `names[j]`, and
   * the group after the last name is the tail.
   */
  lemma GroupPerName(t: string)
    ensures Groups(PatternSource(Compile(t)), false) == |Names(Compile(t))| + 1
  {
    SourceGroups(Compile(t));
  }

  /** `GroupPerName` for any token list. */
  lemma SourceGroups(toks: seq<Token>)
    ensures Groups(PatternSource(toks), false) == |Names(toks)| + 1
  {
    var tg := TailGroup;
    var x := Body(toks) + tg;
    assert PatternSource(toks) == ['^'] + x;
    PlainHeadGroups('^', x);
    BodyGroups(toks, tg);
    TailGroups();
  }

  /** A character other than `\\`, `[` and `(` opens nothing. */
  lemma PlainHeadGroups(c: char, x: string)
    requires c != '\\' && c != '[' && c != '('
    ensures Groups([c] + x, false) == Groups(x, false)
  {
    assert ([c] + x)[1..] == x;
  }

  /** Each capture of the body adds one group, and escaped literals add none. */
  lemma {:induction false} BodyGroups(toks: seq<Token>, rest: string)
    ensures Groups(Body(toks) + rest, false) == |Names(toks)| + Groups(rest, false)
  {
    if toks != [] {
      BodyGroups(toks[1..], rest);
      match toks[0]
      case Lit(x) =>
        assert Body(toks) + rest == RegexEscape(x) + (Body(toks[1..]) + rest);
        EscapedGroups(x, Body(toks[1..]) + rest);
      case Cap(_) =>
        assert Body(toks) + rest == CapGroup + (Body(toks[1..]) + rest);
        CapGroups(Body(toks[1..]) + rest);
    } else {
      assert Body(toks) + rest == rest;
    }
  }

  /** An escaped literal opens no group: every metacharacter is behind a backslash. */
  lemma {:induction false} EscapedGroups(s: string, rest: string)
    ensures Groups(RegexEscape(s) + rest, false) == Groups(rest, false)
  {
    if s != [] {
      EscapedGroups(s[1..], rest);
      var r := RegexEscape(s) + rest;
      if IsMeta(s[0]) {
        assert r[0] == '\\' && r[2..] == RegexEscape(s[1..]) + rest;
      } else {
        assert r[0] == s[0] && r[1..] == RegexEscape(s[1..]) + rest;
      }
    } else {
      assert RegexEscape(s) + rest == rest;
    }
  }

  /** `\/([^/]*)` is one group, whatever follows it. */
  lemma CapGroups(rest: string)
    ensures Groups(CapGroup + rest, false) == 1 + Groups(rest, false)
  {
    var r := CapGroup + rest;
    assert r[0] == '/' && r[1] == '(' && r[2] == '[';
    assert r[2..] == "[^/]*)" + rest;
    ClassGroups(rest);
    assert Groups(r[1..], false) == 1 + Groups(r[2..], false);
  }

  /** The class `[^/]`, then `*)`, opens no group. */
  lemma ClassGroups(rest: string)
    ensures Groups("[^/]*)" + rest, false) == Groups(rest, false)
  {
    var r := "[^/]*)" + rest;
    assert r[0] == '[' && r[1] == '^' && r[2] == '/' && r[3] == ']' && r[4] == '*' && r[5] == ')';
    assert r[6..] == rest;
    assert Groups(r[5..], false) == Groups(rest, false);
    assert Groups(r[4..], false) == Groups(r[5..], false);
    assert Groups(r[3..], true) == Groups(r[4..], false);
    assert Groups(r[2..], true) == Groups(r[3..], true);
    assert Groups(r[1..], true) == Groups(r[2..], true);
  }

  /** The trailer `([/?].*)?$` is one group. */
  lemma TailGroups()
    ensures Groups(TailGroup, false) == 1
  {
    var r := TailGroup;
    assert |r| == 10 && r[0] == '(' && r[1] == '[' && r[2] == '/' && r[3] == '?' && r[4] == ']';
    assert r[5] == '.' && r[6] == '*' && r[7] == ')' && r[8] == '?' && r[9] == '$';
    TrailerShapeGroups(r);
  }

  /** The counting step of `TailGroups`, on the trailer's characters. */
  lemma TrailerShapeGroups(r: string)
    requires |r| == 10 && r[0] == '(' && r[1] == '[' && r[2] == '/' && r[3] == '?' && r[4] == ']'
    requires r[5] == '.' && r[6] == '*' && r[7] == ')' && r[8] == '?' && r[9] == '$'
    ensures Groups(r, false) == 1
  {
    assert Groups(r[9..], false) == 0 by { assert r[9..][1..] == []; }
    assert Groups(r[8..], false) == Groups(r[9..], false);
    assert Groups(r[7..], false) == Groups(r[8..], false);
    assert Groups(r[6..], false) == Groups(r[7..], false);
    assert Groups(r[5..], false) == Groups(r[6..], false);
    assert Groups(r[4..], true) == Groups(r[5..], false);
    assert Groups(r[3..], true) == Groups(r[4..], true);
    assert Groups(r[2..], true) == Groups(r[3..], true);
    assert Groups(r[1..], false) == Groups(r[2..], true);
  }

  lemma EndsWith(a: string, b: string)
    ensures (a + b)[|a + b| - |b|..] == b
  {
  }


  // ---------------------------------------------------------------------
  // matching a path against a compiled template

  /** What may follow the last token: nothing, or text starting with `/` or `?`. */
  predicate TailOk(tail: string)
  {
    tail == "" || tail[0] == '/' || tail[0] == '?'
  }

  /**
   * Matches `s` against the tokens, left to right; on success gives the
   * captures (in template order) and the unmatched tail.
   */
  function MatchTokens(toks: seq<Token>, s: string): (r: Option<(seq<string>, string)>)
    ensures r.Some? ==> |r.value.0| == |Names(toks)|
    ensures r.Some? ==> forall i :: 0 <= i < |r.value.0| ==> '/' !in r.value.0[i]
    ensures r.Some? ==> TailOk(r.value.1)
    decreases |toks|
  {
    if toks == [] then
      if TailOk(s) then Some(([], s)) else None
    else match toks[0]
      case Lit(t) =>
        if |t| <= |s| && s[..|t|] == t then MatchTokens(toks[1..], s[|t|..]) else None
      case Cap(_) =>
        if |s| > 0 && s[0] == '/' then
          var e := SegmentEnd(s[1..]);
          match MatchTokens(toks[1..], s[1 + e..])
          case None => None
          case Some(m) => Some(([s[1..1 + e]] + m.0, m.1))
        else None
  }

  /** The text the tokens stand for once each capture is given a value. */
  function Fill(toks: seq<Token>, caps: seq<string>): string
    requires |caps| == |Names(toks)|
  {
    if toks == [] then ""
    else match toks[0]
      case Lit(t) => t + Fill(toks[1..], caps)
      case Cap(_) => "/" + caps[0] + Fill(toks[1..], caps[1..])
  }

  /** A successful match decomposes the path: filled template, then tail. */
  lemma {:induction false} MatchSound(toks: seq<Token>, s: string)
    requires MatchTokens(toks, s).Some?
    ensures s == Fill(toks, MatchTokens(toks, s).value.0) + MatchTokens(toks, s).value.1
    decreases |toks|, 1
  {
    if toks != [] {
      if toks[0].Lit? {
        MatchSoundLit(toks, s);
      } else {
        MatchSoundCap(toks, s);
      }
    }
  }

  lemma {:induction false} MatchSoundLit(toks: seq<Token>, s: string)
    requires toks != [] && toks[0].Lit? && MatchTokens(toks, s).Some?
    ensures s == Fill(toks, MatchTokens(toks, s).value.0) + MatchTokens(toks, s).value.1
    decreases |toks|, 0
  {
    var t := toks[0].text;
    LitStep(toks, s);
    var r := MatchTokens(toks[1..], s[|t|..]).value;
    MatchSound(toks[1..], s[|t|..]);
    FillLit(toks, r.0);
    Assoc(t, Fill(toks[1..], r.0), r.1);
    Rejoin(s, |t|);
  }

  lemma LitStep(toks: seq<Token>, s: string)
    requires toks != [] && toks[0].Lit? && MatchTokens(toks, s).Some?
    ensures |toks[0].text| <= |s| && s[..|toks[0].text|] == toks[0].text
    ensures MatchTokens(toks, s) == MatchTokens(toks[1..], s[|toks[0].text|..])
  {
  }

  lemma FillLit(toks: seq<Token>, caps: seq<string>)
    requires toks != [] && toks[0].Lit? && |caps| == |Names(toks)|
    ensures |caps| == |Names(toks[1..])|
    ensures Fill(toks, caps) == toks[0].text + Fill(toks[1..], caps)
  {
  }

  lemma Rejoin(s: string, k: nat)
    requires k <= |s|
    ensures s == s[..k] + s[k..]
  {
  }

  lemma {:induction false} MatchSoundCap(toks: seq<Token>, s: string)
    requires toks != [] && toks[0].Cap? && MatchTokens(toks, s).Some?
    ensures s == Fill(toks, MatchTokens(toks, s).value.0) + MatchTokens(toks, s).value.1
    decreases |toks|, 0
  {
    var e := CapStep(toks, s);
    var m := MatchTokens(toks[1..], s[1 + e..]).value;
    MatchSound(toks[1..], s[1 + e..]);
    var x := s[1..1 + e];
    var caps := [x] + m.0;
    assert caps[0] == x && caps[1..] == m.0;
    FillCap(toks, caps);
    Assoc("/" + x, Fill(toks[1..], m.0), m.1);
    CapRejoin(s, e);
  }

  lemma CapStep(toks: seq<Token>, s: string) returns (e: nat)
    requires toks != [] && toks[0].Cap? && MatchTokens(toks, s).Some?
    ensures |s| > 0 && s[0] == '/' && e == SegmentEnd(s[1..]) && 1 + e <= |s|
    ensures MatchTokens(toks[1..], s[1 + e..]).Some?
    ensures MatchTokens(toks, s).value
            == ([s[1..1 + e]] + MatchTokens(toks[1..], s[1 + e..]).value.0, MatchTokens(toks[1..], s[1 + e..]).value.1)
  {
    e := SegmentEnd(s[1..]);
  }

  lemma CapRejoin(s: string, e: nat)
    requires 0 < |s| && s[0] == '/' && 1 + e <= |s|
    ensures s == "/" + s[1..1 + e] + s[1 + e..]
  {
  }

  lemma Assoc(a: string, b: string, c: string)
    ensures a + b + c == a + (b + c)
  {
  }

  /**
   * The shape compiled templates have: a capture is followed by nothing,
   * by another capture, by literal text starting with `/`, or by an empty
   * final literal.
   */
  predicate FollowsCap(rest: seq<Token>)
  {
    rest == [] || rest[0].Cap?
    || (rest[0].Lit? && ((|rest[0].text| > 0 && rest[0].text[0] == '/') || (rest[0].text == "" && |rest| == 1)))
  }

  predicate WellFormed(toks: seq<Token>)
    decreases |toks|
  {
    toks == [] || ((toks[0].Cap? ==> FollowsCap(toks[1..])) && WellFormed(toks[1..]))
  }

  lemma CompileFollows(u: string)
    requires u == "" || u[0] == '/'
    ensures FollowsCap(Compile(u))
  {
    var k := CapMark(u);
    if k >= 0 {
      CompileStep(u, k);
    }
  }

  lemma WellFormedCons(t: Token, rest: seq<Token>)
    requires WellFormed(rest)
    requires t.Cap? ==> FollowsCap(rest)
    ensures WellFormed([t] + rest)
  {
    assert ([t] + rest)[1..] == rest;
  }

  /** Every template compiles to a well-formed token list. */
  lemma {:induction false} CompileWellFormed(t: string)
    ensures WellFormed(Compile(t))
    decreases |t|
  {
    var k := CapMark(t);
    if k >= 0 {
      var rest := t[k + 2..];
      var e := SegmentEnd(rest);
      var pre := if k > 0 then [Lit(t[..k])] else [];
      CompileStep(t, k);
      CompileWellFormed(rest[e..]);
      CompileFollows(rest[e..]);
      WellFormedStep(pre, rest[..e], Compile(rest[e..]));
    } else {
      WellFormedCons(Lit(t), []);
    }
  }

  lemma {:induction false} WellFormedStep(pre: seq<Token>, n: string, tl: seq<Token>)
    requires pre == [] || (|pre| == 1 && pre[0].Lit?)
    requires WellFormed(tl) && FollowsCap(tl)
    ensures WellFormed(pre + [Cap(n)] + tl)
  {
    var ct := [Cap(n)] + tl;
    WellFormedCons(Cap(n), tl);
    if pre == [] {
      assert pre + [Cap(n)] + tl == ct;
    } else {
      assert pre == [pre[0]] && !pre[0].Cap?;
      WellFormedCons(pre[0], ct);
      assert pre + [Cap(n)] + tl == [pre[0]] + ct;
    }
  }


  /** After a capture, the filled remainder is empty or starts with `/`. */
  lemma FilledAfterCap(rest: seq<Token>, caps: seq<string>, tail: string)
    requires FollowsCap(rest) && |caps| == |Names(rest)|
    requires tail == "" || tail[0] == '/'
    ensures var x := Fill(rest, caps) + tail; x == "" || x[0] == '/'
  {
    if rest != [] && rest[0].Lit? && rest[0].text == "" {
      assert rest[1..] == [];
    }
  }

  lemma SegmentEndOf(c: string, x: string)
    requires '/' !in c
    requires x == "" || x[0] == '/'
    ensures SegmentEnd(c + x) == |c|
  {
    var s := c + x;
    if x == "" {
      assert s == c;
    } else {
      assert s[|c|] == '/';
      assert forall i :: 0 <= i < |c| ==> s[i] == c[i];
    }
  }

  /**
   * The matcher finds every decomposition of a well-formed template whose
   * captures hold no `/` and whose tail does not start with `?`: such a
   * decomposition is the only one, and the matcher returns it.
   */
  lemma {:induction false} MatchComplete(toks: seq<Token>, caps: seq<string>, tail: string)
    requires WellFormed(toks) && |caps| == |Names(toks)|
    requires forall i :: 0 <= i < |caps| ==> '/' !in caps[i]
    requires tail == "" || tail[0] == '/'
    ensures MatchTokens(toks, Fill(toks, caps) + tail) == Some((caps, tail))
    decreases |toks|
  {
    if toks == [] {
      assert Fill(toks, caps) + tail == tail;
    } else {
      if toks[0].Lit? {
        MatchComplete(toks[1..], caps, tail);
        MatchLitStep(toks, caps, tail);
      } else {
        var rest := toks[1..];
        MatchComplete(rest, caps[1..], tail);
        FilledAfterCap(rest, caps[1..], tail);
        SegmentEndOf(caps[0], Fill(rest, caps[1..]) + tail);
        MatchCapStep(toks, caps, tail);
      }
    }
  }

  lemma MatchLitStep(toks: seq<Token>, caps: seq<string>, tail: string)
    requires toks != [] && toks[0].Lit? && |caps| == |Names(toks)|
    ensures MatchTokens(toks, Fill(toks, caps) + tail) == MatchTokens(toks[1..], Fill(toks[1..], caps) + tail)
  {
    var t := toks[0].text;
    var s := Fill(toks, caps) + tail;
    assert s == t + (Fill(toks[1..], caps) + tail);
    assert s[..|t|] == t && s[|t|..] == Fill(toks[1..], caps) + tail;
  }

  lemma MatchCapStep(toks: seq<Token>, caps: seq<string>, tail: string)
    requires toks != [] && toks[0].Cap? && |caps| == |Names(toks)|
    requires var x := Fill(toks[1..], caps[1..]) + tail; SegmentEnd(caps[0] + x) == |caps[0]|
    requires MatchTokens(toks[1..], Fill(toks[1..], caps[1..]) + tail) == Some((caps[1..], tail))
    ensures MatchTokens(toks, Fill(toks, caps) + tail) == Some((caps, tail))
  {
    FillCap(toks, caps);
    AppendAfterCap(Fill(toks, caps), caps[0], Fill(toks[1..], caps[1..]), tail);
    MatchCapAt(toks, Fill(toks, caps) + tail, caps[0], Fill(toks[1..], caps[1..]) + tail, caps[1..], tail);
    ConsFirst(caps);
  }

  lemma FillCap(toks: seq<Token>, caps: seq<string>)
    requires toks != [] && toks[0].Cap? && |caps| == |Names(toks)|
    ensures Fill(toks, caps) == "/" + caps[0] + Fill(toks[1..], caps[1..])
  {
  }

  lemma AppendAfterCap(f: string, c: string, g: string, tail: string)
    requires f == "/" + c + g
    ensures f + tail == "/" + (c + (g + tail))
  {
  }

  lemma ConsFirst<T>(xs: seq<T>)
    requires xs != []
    ensures [xs[0]] + xs[1..] == xs
  {
  }


  lemma MatchCapAt(toks: seq<Token>, s: string, c: string, x: string, more: seq<string>, tail: string)
    requires toks != [] && toks[0].Cap?
    requires s == "/" + (c + x) && SegmentEnd(c + x) == |c|
    requires MatchTokens(toks[1..], x) == Some((more, tail))
    ensures MatchTokens(toks, s) == Some(([c] + more, tail))
  {
    assert s[1..] == c + x;
    assert s[1..1 + |c|] == c && s[1 + |c|..] == x;
  }


  // ---------------------------------------------------------------------
  // the route records and the lookup table

  datatype RouteKind =
    | Literal
    | Parametric(patt: string, names: seq<string>, tokens: seq<Token>)

  /** What `_buildCapturingRegex` stores for a parametric template. */
  function CompiledKind(name: string): RouteKind
  {
    Parametric(PatternSource(Compile(name)), Names(Compile(name)), Compile(name))
  }

  /**
   * A registered route. `steps` and the cached composed `stack` belong to
   * the application (lib/restiq.js): it sets `steps` as soon as the
   * matcher hands the record back, and caches `stack` on first use; the
   * matcher leaves both alone. Here `steps` is given when the record is
   * made, since nothing can observe the record before it is set.
   */
  class RouteRecord {
    const name: string
    const handlers: seq<HandlerId>
    const kind: RouteKind
    const steps: nat
    var stack: Option<seq<HandlerId>>

    constructor (name: string, handlers: seq<HandlerId>, kind: RouteKind, steps: nat)
      ensures this.name == name && this.handlers == handlers && this.kind == kind
      ensures this.steps == steps && stack == None
    {
      this.name := name;
      this.handlers := handlers;
      this.kind := kind;
      this.steps := steps;
      stack := None;
    }
  }

  datatype MatchType = LitMatch | PattMatch

  /**
   * The result of `mapRoute`: the path looked up (text before `?`), the
   * registered template, the tail (`None` stands for JavaScript's
   * `undefined`), the captured variables, the handlers, the match type and
   * the back-reference `route` to the stored record.
   */
  datatype Match = Match(
    path: string,
    name: string,
    tail: Option<string>,
    vars: map<string, string>,
    handlers: seq<HandlerId>,
    matchType: MatchType,
    route: RouteRecord)

  /** The consistency of the two tables: keys are names, kinds are as compiled. */
  predicate TableValid(lits: map<string, RouteRecord>, pats: seq<RouteRecord>)
  {
    (forall k | k in lits :: lits[k].name == k && lits[k].kind == Literal && CapMark(k) < 0)
    && (forall i | 0 <= i < |pats| :: pats[i].kind == CompiledKind(pats[i].name) && CapMark(pats[i].name) >= 0)
  }

  /** `vars[names[j]] = caps[j]` for j = 0, 1, ...: later names overwrite earlier ones. */
  function VarsOf(names: seq<string>, caps: seq<string>): map<string, string>
    requires |names| == |caps|
  {
    if names == [] then map[]
    else VarsOf(names[..|names| - 1], caps[..|names| - 1])[names[|names| - 1] := caps[|names| - 1]]
  }

  /** The captures are bound to exactly the names. */
  lemma {:induction false} VarsOfKeys(names: seq<string>, caps: seq<string>)
    requires |names| == |caps|
    ensures VarsOf(names, caps).Keys == set j | 0 <= j < |names| :: names[j]
  {
    if names != [] {
      var m := |names| - 1;
      VarsOfKeys(names[..m], caps[..m]);
      assert (set j | 0 <= j < |names| :: names[j]) == (set j | 0 <= j < m :: names[..m][j]) + {names[m]};
    }
  }

  /** A name repeated in the template gets the capture of its last occurrence. */
  lemma {:induction false} VarsOfLast(names: seq<string>, caps: seq<string>, j: nat)
    requires |names| == |caps| && j < |names|
    requires forall k :: j < k < |names| ==> names[k] != names[j]
    ensures names[j] in VarsOf(names, caps) && VarsOf(names, caps)[names[j]] == caps[j]
  {
    var m := |names| - 1;
    if j < m {
      assert names[..m][j] == names[j];
      VarsOfLast(names[..m], caps[..m], j);
    }
  }

  /** Every bound value is one of the captures. */
  lemma {:induction false} VarsOfValues(names: seq<string>, caps: seq<string>)
    requires |names| == |caps|
    ensures VarsOf(names, caps).Values <= set j | 0 <= j < |caps| :: caps[j]
  {
    if names != [] {
      var m := |names| - 1;
      VarsOfValues(names[..m], caps[..m]);
      assert (set j | 0 <= j < m :: caps[..m][j]) <= set j | 0 <= j < |caps| :: caps[j];
    }
  }

  /** The text before the first `?`. */
  function PathPart(url: string): string
  {
    var q := IndexOfChar(url, '?');
    if q < 0 then url else url[..q]
  }

  /** The text after the first `?`, or "" when there is none. */
  function QueryPart(url: string): string
  {
    var q := IndexOfChar(url, '?');
    if q < 0 then "" else url[q + 1..]
  }

  predicate Matches(r: RouteRecord, path: string)
  {
    r.kind.Parametric? && MatchTokens(r.kind.tokens, path).Some?
  }

  /** The match a parametric record yields for a path, if any. */
  function MatchFor(r: RouteRecord, path: string): Option<Match>
    requires r.kind == CompiledKind(r.name)
  {
    match MatchTokens(r.kind.tokens, path)
    case None => None
    case Some(m) => Some(Match(path, r.name, if m.1 == "" then None else Some(m.1),
                               VarsOf(r.kind.names, m.0), r.handlers, PattMatch, r))
  }

  /** The first pattern, from index `i` on, that matches. */
  function FirstMatchFrom(pats: seq<RouteRecord>, path: string, i: nat): Option<Match>
    requires i <= |pats|
    requires forall j :: i <= j < |pats| ==> pats[j].kind == CompiledKind(pats[j].name)
    decreases |pats| - i
  {
    if i == |pats| then None
    else if MatchFor(pats[i], path).Some? then MatchFor(pats[i], path)
    else FirstMatchFrom(pats, path, i + 1)
  }

  /** `mapRoute(routeName)` as a function of the two tables. */
  function Lookup(lits: map<string, RouteRecord>, pats: seq<RouteRecord>, url: string): Option<Match>
    requires TableValid(lits, pats)
  {
    var path := PathPart(url);
    if path in lits then
      Some(Match(path, lits[path].name, Some(QueryPart(url)), map[], lits[path].handlers, LitMatch, lits[path]))
    else FirstMatchFrom(pats, path, 0)
  }

  // ---------------------------------------------------------------------
  // properties of the lookup

  lemma {:induction false} FirstMatchSkips(pats: seq<RouteRecord>, path: string, j: nat, i: nat)
    requires j <= i < |pats|
    requires forall k :: 0 <= k < |pats| ==> pats[k].kind == CompiledKind(pats[k].name)
    requires forall k :: j <= k < i ==> !Matches(pats[k], path)
    ensures FirstMatchFrom(pats, path, j) == FirstMatchFrom(pats, path, i)
    decreases i - j
  {
    if j < i {
      assert !Matches(pats[j], path);
      assert MatchFor(pats[j], path).None?;
      assert FirstMatchFrom(pats, path, j) == FirstMatchFrom(pats, path, j + 1);
      FirstMatchSkips(pats, path, j + 1, i);
    }
  }

  /**
   * When no literal route has the path, the first pattern in registration
   * order that matches wins, whatever any later pattern would match.
   */
  lemma FirstRegisteredWins(lits: map<string, RouteRecord>, pats: seq<RouteRecord>, url: string, i: nat)
    requires TableValid(lits, pats)
    requires PathPart(url) !in lits
    requires i < |pats| && Matches(pats[i], PathPart(url))
    requires forall k :: 0 <= k < i ==> !Matches(pats[k], PathPart(url))
    ensures Lookup(lits, pats, url) == MatchFor(pats[i], PathPart(url))
    ensures Lookup(lits, pats, url).value.route == pats[i]
  {
    FirstMatchSkips(pats, PathPart(url), 0, i);
  }

  lemma {:induction false} FirstMatchNone(pats: seq<RouteRecord>, path: string, i: nat)
    requires i <= |pats|
    requires forall k :: 0 <= k < |pats| ==> pats[k].kind == CompiledKind(pats[k].name)
    ensures FirstMatchFrom(pats, path, i).None? <==> forall k :: i <= k < |pats| ==> !Matches(pats[k], path)
    decreases |pats| - i
  {
    if i < |pats| {
      FirstMatchNone(pats, path, i + 1);
      assert Matches(pats[i], path) <==> MatchFor(pats[i], path).Some?;
      assert FirstMatchFrom(pats, path, i)
             == if MatchFor(pats[i], path).Some? then MatchFor(pats[i], path) else FirstMatchFrom(pats, path, i + 1);
    }
  }

  /** A lookup fails exactly when no literal has the path and no pattern matches it. */
  lemma NotFoundIff(lits: map<string, RouteRecord>, pats: seq<RouteRecord>, url: string)
    requires TableValid(lits, pats)
    ensures Lookup(lits, pats, url).None?
            <==> PathPart(url) !in lits && forall k :: 0 <= k < |pats| ==> !Matches(pats[k], PathPart(url))
  {
    FirstMatchNone(pats, PathPart(url), 0);
  }

  lemma {:induction false} FirstMatchFound(pats: seq<RouteRecord>, path: string, i: nat)
    requires i <= |pats|
    requires forall k :: 0 <= k < |pats| ==> pats[k].kind == CompiledKind(pats[k].name)
    requires FirstMatchFrom(pats, path, i).Some?
    ensures exists k :: i <= k < |pats| && FirstMatchFrom(pats, path, i) == MatchFor(pats[k], path)
    decreases |pats| - i
  {
    if MatchFor(pats[i], path).None? {
      FirstMatchFound(pats, path, i + 1);
    }
  }

  /**
   * A pattern match carries the path before `?`, a record from the pattern
   * list, captures bound to the record's names, none of them holding `/`,
   * and a tail starting with `/` (or absent): the path is the template
   * filled with the captures, followed by the tail.
   */
  lemma PatternMatchMeaning(lits: map<string, RouteRecord>, pats: seq<RouteRecord>, url: string)
    requires TableValid(lits, pats)
    requires Lookup(lits, pats, url).Some? && Lookup(lits, pats, url).value.matchType == PattMatch
    ensures var m := Lookup(lits, pats, url).value;
            && m.path == PathPart(url) && PathPart(url) !in lits
            && m.route in pats && m.name == m.route.name && m.handlers == m.route.handlers
            && m.route.kind == CompiledKind(m.route.name) && Matches(m.route, m.path)
            && var caps := MatchTokens(m.route.kind.tokens, m.path).value.0;
               var rest := MatchTokens(m.route.kind.tokens, m.path).value.1;
               && m.path == Fill(m.route.kind.tokens, caps) + rest
               && m.vars == VarsOf(m.route.kind.names, caps)
               && (forall n :: n in m.vars ==> '/' !in m.vars[n])
               && (m.tail == None <==> rest == "")
               && (m.tail.Some? ==> m.tail.value == rest && rest[0] == '/')
  {
    var path := PathPart(url);
    FirstMatchFound(pats, path, 0);
    var k :| 0 <= k < |pats| && FirstMatchFrom(pats, path, 0) == MatchFor(pats[k], path);
    var r := pats[k];
    var mt := MatchTokens(r.kind.tokens, path).value;
    MatchSound(r.kind.tokens, path);
    VarsOfValues(r.kind.names, mt.0);
    var v := VarsOf(r.kind.names, mt.0);
    forall n | n in v
      ensures '/' !in v[n]
    {
      assert v[n] in v.Values;
    }
    SplitQuery(url);
    if mt.1 != "" {
      assert path == Fill(r.kind.tokens, mt.0) + mt.1;
      assert mt.1[0] == path[|path| - |mt.1|];
    }
  }


  /**
   * A literal route wins over every pattern: its record is returned with
   * the query text as tail and no variables.
   */
  lemma LiteralWins(lits: map<string, RouteRecord>, pats: seq<RouteRecord>, url: string)
    requires TableValid(lits, pats)
    requires PathPart(url) in lits
    ensures var m := Lookup(lits, pats, url);
            && m.Some? && m.value.route == lits[PathPart(url)] && m.value.matchType == LitMatch
            && m.value.name == m.value.path == PathPart(url)
            && m.value.tail == Some(QueryPart(url)) && m.value.vars == map[]
            && m.value.handlers == lits[PathPart(url)].handlers
  {
  }

  /** A literal route just stored is what a lookup of its name returns. */
  lemma AddedLiteralFound(lits: map<string, RouteRecord>, pats: seq<RouteRecord>, name: string, r: RouteRecord)
    requires TableValid(lits[name := r], pats)
    requires '?' !in name
    ensures Lookup(lits[name := r], pats, name).Some?
    ensures Lookup(lits[name := r], pats, name).value.route == r
  {
    SplitQuery(name);
  }

  /**
   * A pattern route just appended is returned for a path no literal and no
   * earlier pattern claims, as soon as its tokens match.
   */
  lemma AddedPatternFound(lits: map<string, RouteRecord>, pats: seq<RouteRecord>, url: string, r: RouteRecord)
    requires TableValid(lits, pats + [r]) && r.kind == CompiledKind(r.name)
    requires PathPart(url) !in lits && Matches(r, PathPart(url))
    requires forall k :: 0 <= k < |pats| ==> !Matches(pats[k], PathPart(url))
    ensures Lookup(lits, pats + [r], url) == MatchFor(r, PathPart(url))
  {
    var ps := pats + [r];
    assert ps[|pats|] == r;
    assert forall k :: 0 <= k < |pats| ==> ps[k] == pats[k];
    FirstRegisteredWins(lits, ps, url, |pats|);
  }

  /**
   * Two captures and a literal, the shape of the source's `/:x/:y/echo`
   * route: on `/1/2/echo` it binds x to 1 and y to 2. Stated for any names
   * and values without `/` and any final literal without `/:` that starts
   * with `/`.
   */
  lemma TwoCaptures(x: string, y: string, lit: string, a: string, b: string)
    requires '/' !in x && '/' !in y && '/' !in a && '/' !in b && x != y
    requires |lit| > 0 && lit[0] == '/' && CapMark(lit) < 0
    ensures Compile("/:" + x + ("/:" + y + lit)) == [Cap(x), Cap(y), Lit(lit)]
    ensures MatchTokens([Cap(x), Cap(y), Lit(lit)], "/" + a + ("/" + b + lit)) == Some(([a, b], ""))
    ensures VarsOf(Names([Cap(x), Cap(y), Lit(lit)]), [a, b]) == map[x := a, y := b]
  {
    TwoCapturesCompile(x, y, lit);
    TwoCapturesMatch(x, y, lit, a, b);
    TwoNames(x, y, lit, a, b);
  }

  lemma TwoCapturesCompile(x: string, y: string, lit: string)
    requires '/' !in x && '/' !in y
    requires |lit| > 0 && lit[0] == '/' && CapMark(lit) < 0
    ensures Compile("/:" + x + ("/:" + y + lit)) == [Cap(x), Cap(y), Lit(lit)]
  {
    CompileNoMark(lit);
    CompileLeadingCap(y, lit);
    CompileLeadingCap(x, "/:" + y + lit);
  }

  lemma TwoCapturesMatch(x: string, y: string, lit: string, a: string, b: string)
    requires '/' !in a && '/' !in b
    requires |lit| > 0 && lit[0] == '/'
    ensures MatchTokens([Cap(x), Cap(y), Lit(lit)], "/" + a + ("/" + b + lit)) == Some(([a, b], ""))
  {
    var toks := [Cap(x), Cap(y), Lit(lit)];
    assert WellFormed(toks) by {
      WellFormedCons(Lit(lit), []);
      assert [Lit(lit)] + [] == [Lit(lit)];
      WellFormedCons(Cap(y), [Lit(lit)]);
      assert [Cap(y)] + [Lit(lit)] == [Cap(y), Lit(lit)];
      WellFormedCons(Cap(x), [Cap(y), Lit(lit)]);
      assert [Cap(x)] + [Cap(y), Lit(lit)] == toks;
    }
    TwoCapturesFill(toks, x, y, lit, a, b);
    MatchComplete(toks, [a, b], "");
  }

  lemma TwoCapturesFill(toks: seq<Token>, x: string, y: string, lit: string, a: string, b: string)
    requires toks == [Cap(x), Cap(y), Lit(lit)]
    ensures |Names(toks)| == 2
    ensures Fill(toks, [a, b]) + "" == "/" + a + ("/" + b + lit)
  {
    assert toks[1..] == [Cap(y), Lit(lit)] && toks[2..] == [Lit(lit)];
    assert toks[2..][1..] == [];
    assert Names(toks[2..]) == [];
    assert Names(toks[1..]) == [y] + [];
    assert Fill(toks[2..], []) == lit;
    assert [a, b][1..] == [b] && [b][1..] == [];
    assert Fill(toks[1..], [b]) == "/" + b + lit;
  }

  lemma TwoNames(x: string, y: string, lit: string, a: string, b: string)
    requires x != y
    ensures Names([Cap(x), Cap(y), Lit(lit)]) == [x, y]
    ensures VarsOf([x, y], [a, b]) == map[x := a, y := b]
  {
    var toks := [Cap(x), Cap(y), Lit(lit)];
    assert toks[1..] == [Cap(y), Lit(lit)] && toks[2..] == [Lit(lit)];
    assert Names([Lit(lit)]) == [];
    assert Names([Cap(y), Lit(lit)]) == [y];
    assert [x, y][..1] == [x] && [a, b][..1] == [a];
    assert VarsOf([x], [a]) == map[x := a];
  }

  /** A template with no `/:` is a single literal. */
  lemma CompileNoMark(t: string)
    requires CapMark(t) < 0
    ensures Compile(t) == [Lit(t)]
  {
  }

  /** A template that starts with a capture compiles to that capture and the rest. */
  lemma CompileLeadingCap(n: string, r: string)
    requires '/' !in n
    requires r == "" || r[0] == '/'
    ensures Compile("/:" + n + r) == [Cap(n)] + Compile(r)
  {
    var t := "/:" + n + r;
    MarkPrefix(n, r);
    SegmentEndOf(n, r);
    ConcatSlices(n, r);
    CompileStep(t, 0);
  }

  /**
   * The route `/:x/:y/echo`: it compiles to two captures and the literal
   * `/echo`, and on `/1/2/echo` it matches with no tail, binding x to 1 and
   * y to 2.
   */
  lemma EchoNames()
    ensures Compile("/:x/:y/echo") == [Cap("x"), Cap("y"), Lit("/echo")]
    ensures MatchTokens([Cap("x"), Cap("y"), Lit("/echo")], "/1/2/echo") == Some((["1", "2"], ""))
    ensures VarsOf(Names([Cap("x"), Cap("y"), Lit("/echo")]), ["1", "2"]) == map["x" := "1", "y" := "2"]
  {
    assert CapMark("/echo") < 0;
    EchoSpelling();
    TwoCaptures("x", "y", "/echo", "1", "2");
  }

  lemma EchoSpelling()
    ensures "/:" + "x" + ("/:" + "y" + "/echo") == "/:x/:y/echo"
    ensures "/" + "1" + ("/" + "2" + "/echo") == "/1/2/echo"
  {
    var t := "/:" + "x" + ("/:" + "y" + "/echo");
    assert |t| == 11;
    assert forall i | 0 <= i < 11 :: t[i] == "/:x/:y/echo"[i];
    assert "/" + "1" == "/1" && "/" + "2" == "/2";
    assert "/2" + "/echo" == "/2/echo";
    assert "/1" + "/2/echo" == "/1/2/echo";
  }

  /** The path and query split the URL at its first `?`. */
  lemma SplitQuery(url: string)
    ensures '?' !in PathPart(url)
    ensures url == PathPart(url) || url == PathPart(url) + "?" + QueryPart(url)
    ensures '?' !in url ==> PathPart(url) == url && QueryPart(url) == ""
  {
    var q := IndexOfChar(url, '?');
    if q >= 0 {
      assert url == url[..q] + "?" + url[q + 1..];
    }
  }

  // ---------------------------------------------------------------------
  // the QRoute object

  /** The source's `QRoute`: `_literals` and `_patterns`. */
  /**
   * The tables after `addRoute` stored `r` (`l0`, `p0` before; `l1`, `p1`
   * after): a name without `/:` replaces the literal entry under that name
   * and leaves the patterns alone; any other name is compiled and appended
   * to the patterns, and the literals are left alone.
   */
  predicate Registered(r: RouteRecord, l0: map<string, RouteRecord>, p0: seq<RouteRecord>,
                       l1: map<string, RouteRecord>, p1: seq<RouteRecord>)
  {
    && (IndexOf(r.name, "/:") < 0 ==> r.kind == Literal && l1 == l0[r.name := r] && p1 == p0)
    && (IndexOf(r.name, "/:") >= 0 ==> r.kind == CompiledKind(r.name) && p1 == p0 + [r] && l1 == l0)
  }

  class Router {
    var literals: map<string, RouteRecord>
    var patterns: seq<RouteRecord>

    ghost predicate Valid()
      reads this
    {
      TableValid(literals, patterns)
    }

    /** Every record the router can return. */
    ghost function Records(): set<RouteRecord>
      reads this
    {
      literals.Values + set r | r in patterns
    }

    constructor ()
      ensures Valid() && literals == map[] && patterns == []
    {
      literals := map[];
      patterns := [];
    }

    /**
     * `addRoute(routeName, handlers)`: a name without `/:` goes into the
     * literal table under exactly that key, replacing any earlier entry; a
     * name with `/:` is compiled and appended to the pattern list. The new
     * record is returned.
     */
    method AddRoute(routeName: string, handlers: seq<HandlerId>, steps: nat) returns (r: RouteRecord)
      requires Valid()
      modifies this
      ensures Valid() && fresh(r)
      ensures r.name == routeName && r.handlers == handlers && r.steps == steps && r.stack == None
      ensures Registered(r, old(literals), old(patterns), literals, patterns)
    {
      CapMarkIsIndexOf(routeName);
      if IndexOf(routeName, "/:") < 0 {
        r := new RouteRecord(routeName, handlers, Literal, steps);
        literals := literals[routeName := r];
      } else {
        var patt, names := BuildCapturingRegex(routeName);
        r := new RouteRecord(routeName, handlers, Parametric(patt, names, Compile(routeName)), steps);
        patterns := patterns + [r];
      }
    }

    /**
     * `mapRoute(routeName)`: split off the query, try the literal table,
     * then scan the patterns in registration order, binding the first
     * match's captures to its names.
     */
    method MapRoute(url: string) returns (m: Option<Match>)
      requires Valid()
      ensures m == Lookup(literals, patterns, url)
    {
      var routeName := url;
      var tail := "";
      var qmark := IndexOfChar(url, '?');
      if qmark >= 0 {
        tail := url[qmark + 1..];
        routeName := url[..qmark];
      }
      if routeName in literals {
        var route := literals[routeName];
        return Some(Match(routeName, route.name, Some(tail), map[], route.handlers, LitMatch, route));
      }
      m := ScanPatterns(patterns, routeName);
    }
  }

  /** The pattern loop of `mapRoute`: the first pattern, in registration order, that matches. */
  method ScanPatterns(pats: seq<RouteRecord>, path: string) returns (m: Option<Match>)
    requires forall k | 0 <= k < |pats| :: pats[k].kind == CompiledKind(pats[k].name)
    ensures m == FirstMatchFrom(pats, path, 0)
  {
    var i := 0;
    while i < |pats|
      invariant 0 <= i <= |pats|
      invariant forall k | 0 <= k < i :: !Matches(pats[k], path)
    {
      var r := pats[i];
      var found := MatchTokens(r.kind.tokens, path);
      if found.Some? {
        var vars := BindVars(r.kind.names, found.value.0);
        var t := found.value.1;
        m := Some(Match(path, r.name, if t == "" then None else Some(t), vars, r.handlers, PattMatch, r));
        assert m == MatchFor(r, path);
        FirstMatchSkips(pats, path, 0, i);
        return;
      }
      PatternMissesExtend(pats, path, i);
      i := i + 1;
    }
    FirstMatchNone(pats, path, 0);
    return None;
  }

  /** One more pattern that does not match. */
  lemma PatternMissesExtend(pats: seq<RouteRecord>, path: string, i: nat)
    requires i < |pats| && pats[i].kind == CompiledKind(pats[i].name)
    requires MatchTokens(pats[i].kind.tokens, path).None?
    requires forall k | 0 <= k < i :: !Matches(pats[k], path)
    ensures forall k | 0 <= k < i + 1 :: !Matches(pats[k], path)
  {
    assert !Matches(pats[i], path);
  }

  /** The inner loop of `mapRoute`: `vars[names[j]] = match[j + 1]` for each j. */
  method BindVars(names: seq<string>, caps: seq<string>) returns (vars: map<string, string>)
    requires |names| == |caps|
    ensures vars == VarsOf(names, caps)
  {
    vars := map[];
    var j := 0;
    while j < |names|
      invariant 0 <= j <= |names|
      invariant vars == VarsOf(names[..j], caps[..j])
    {
      assert names[..j + 1][..j] == names[..j] && caps[..j + 1][..j] == caps[..j];
      vars := vars[names[j] := caps[j]];
      j := j + 1;
    }
    assert names[..j] == names && caps[..j] == caps;
  }

  /** Every record a lookup returns is one of the table's records. */
  lemma LookupRecord(lits: map<string, RouteRecord>, pats: seq<RouteRecord>, url: string)
    requires TableValid(lits, pats)
    ensures Lookup(lits, pats, url).Some? ==> Lookup(lits, pats, url).value.route in lits.Values + set r | r in pats
  {
    var path := PathPart(url);
    if path !in lits && Lookup(lits, pats, url).Some? {
      FirstMatchFound(pats, path, 0);
    }
  }
}
