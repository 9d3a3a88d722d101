/**
  The three spellings of a signal path: slash ("Vehicle/Speed"), dot ("Vehicle.Speed") and
  JSONPath ("$['Vehicle']['children']['Speed']"), and the conversions between them.
 */
module VssPath {
  import opened Basics
  import opened Strings

  const CHILDREN := "['children']"

  /** One element of a JSONPath: the wildcard is spelled without quotes. */
  function Segment(e: string): string {
    if e == "*" then "[*]" else "['" + e + "']"
  }

  function Body(els: seq<string>): string
    requires els != []
  {
    if |els| == 1 then Segment(els[0]) else Segment(els[0]) + (CHILDREN + Body(els[1..]))
  }

  function Gen1ToGen2(s: string): string { ReplaceChar(s, '.', '/') }

  function Gen2ToGen1(s: string): string { ReplaceChar(s, '/', '.') }

  function Gen2ToJson(s: string): string { "$" + Body(Split(s, '/')) }

  /** The five erase and replace passes, in their order. */
  function JsonToGen2(s: string): string {
    var a := EraseAll(s, CHILDREN);
    var b := EraseAll(a, "'");
    var c := ReplaceAll(b, "][", "/");
    var d := EraseFirst(c, "$[");
    EraseLast(d, "]")
  }

  /** The loop of gen2tojson, with its stream and its first-element flag. */
  method BuildJson(input: string) returns (json: string)
    ensures json == Gen2ToJson(input)
  {
    var elements := Split(input, '/');
    json := "$";
    var first := true;
    for i := 0 to |elements|
      invariant first <==> i == 0
      invariant Gen2ToJson(input) == json + Remaining(elements, i)
    {
      RemainingStep(json, elements, i);
      if !first {
        json := json + CHILDREN;
      }
      if elements[i] == "*" {
        json := json + "[*]";
      } else {
        json := json + ("['" + elements[i] + "']");
      }
      first := false;
    }
  }

  /** What the loop has still to write before element `i`. */
  function Remaining(els: seq<string>, i: nat): string
    requires i <= |els|
  {
    if i == |els| then "" else if i == 0 then Body(els) else CHILDREN + Body(els[i..])
  }

  lemma {:induction false} RemainingStep(json: string, els: seq<string>, i: nat)
    requires i < |els|
    ensures json + Remaining(els, i) ==
              (if i == 0 then json else json + CHILDREN) + Segment(els[i]) + Remaining(els, i + 1)
  {
    var seg, r, t := Segment(els[i]), Remaining(els, i + 1), els[i..];
    assert Body(t) == seg + r by {
      if |t| == 1 {
        assert seg + "" == seg;
      } else {
        assert t[1..] == els[i + 1..];
      }
    }
    if i == 0 {
      assert t == els;
      Cat(json, seg, r);
    } else {
      Cat(json, CHILDREN, seg + r);
      Cat(json + CHILDREN, seg, r);
    }
  }

  lemma {:induction false} Cat(a: string, b: string, c: string)
    ensures a + (b + c) == (a + b) + c
  {
  }

  // ------------------------------------------------------------------ round trip

  /** No character with a meaning in JSONPath. */
  predicate Clean(e: string) {
    '\'' !in e && '[' !in e && ']' !in e
  }

  predicate AllClean(els: seq<string>) {
    forall e | e in els :: Clean(e)
  }

  /** The elements that survive the erasing of "['children']". */
  function Kept(els: seq<string>): seq<string> {
    if els == [] then []
    else (if els[0] == "children" then [] else [els[0]]) + Kept(els[1..])
  }

  function Segments(els: seq<string>): string {
    if els == [] then "" else Segment(els[0]) + Segments(els[1..])
  }

  function Brackets(els: seq<string>): string {
    if els == [] then "" else "[" + (els[0] + ("]" + Brackets(els[1..])))
  }

  /** A segment is CHILDREN, followed by anything that is no quote, only for the element children. */
  lemma {:induction false} OnlyChildren(e: string, t: string)
    requires Clean(e)
    requires |CHILDREN| <= |Segment(e) + t| && (Segment(e) + t)[..|CHILDREN|] == CHILDREN
    ensures e == "children"
  {
    var s := Segment(e) + t;
    assert s[1] == s[..|CHILDREN|][1] == '\'';
    assert e != "*";
    if |e| < 8 {
      SegmentChar(e, t, |e|);
      assert false;
    }
    forall i | 0 <= i < 8 ensures e[i] == "children"[i] {
      SegmentChar(e, t, i);
      assert CHILDREN[i + 2] == "children"[i];
    }
    if |e| > 8 {
      SegmentChar(e, t, 8);
      assert false;
    }
    assert e == "children";
  }

  lemma {:induction false} SegmentChar(e: string, t: string, i: nat)
    requires e != "*" && i <= |e| && i <= 8
    requires |CHILDREN| <= |Segment(e) + t| && (Segment(e) + t)[..|CHILDREN|] == CHILDREN
    ensures CHILDREN[i + 2] == if i < |e| then e[i] else '\''
    ensures i < |e| ==> e[i] in e
  {
    var s := Segment(e) + t;
    assert s[i + 2] == s[..|CHILDREN|][i + 2];
    assert s == ("['" + e + "']") + t;
  }

  lemma {:induction false} EraseSegment(e: string, t: string)
    requires Clean(e)
    ensures EraseAll(Segment(e) + t, CHILDREN) ==
              (if e == "children" then "" else Segment(e)) + EraseAll(t, CHILDREN)
  {
    if e == "children" {
      assert Segment(e) == CHILDREN;
      ReplaceMatch(t, CHILDREN, "");
    } else {
      EraseOther(e, t);
    }
  }

  lemma {:induction false} EraseOther(e: string, t: string)
    requires Clean(e) && e != "children"
    ensures EraseAll(Segment(e) + t, CHILDREN) == Segment(e) + EraseAll(t, CHILDREN)
  {
    var s, seg := Segment(e) + t, Segment(e);
    if |s| >= |CHILDREN| && s[..|CHILDREN|] == CHILDREN {
      OnlyChildren(e, t);
    }
    ReplaceStep(s, CHILDREN, "");
    assert s[1..] == seg[1..] + t && '[' !in seg[1..];
    ReplaceSkips(seg[1..], t, CHILDREN, "");
    assert seg == [s[0]] + seg[1..];
    Cat([s[0]], seg[1..], EraseAll(t, CHILDREN));
  }

  lemma {:induction false} EraseBody(els: seq<string>)
    requires els != [] && AllClean(els)
    ensures EraseAll(Body(els), CHILDREN) == Segments(Kept(els))
    decreases |els|
  {
    var e, rest := els[0], els[1..];
    assert Clean(e);
    KeptFirst(els);
    if |els| == 1 {
      EraseSegment(e, "");
      assert Segment(e) + "" == Segment(e);
      assert EraseAll("", CHILDREN) == "" && Segments(Kept(rest)) == "";
    } else {
      EraseBody(rest);
      ReplaceMatch(Body(rest), CHILDREN, "");
      assert "" + EraseAll(Body(rest), CHILDREN) == EraseAll(Body(rest), CHILDREN);
      EraseSegment(e, CHILDREN + Body(rest));
    }
  }

  lemma {:induction false} KeptFirst(els: seq<string>)
    requires els != []
    ensures Segments(Kept(els)) == (if els[0] == "children" then "" else Segment(els[0])) + Segments(Kept(els[1..]))
  {
    var k := Kept(els[1..]);
    if els[0] == "children" {
      assert Kept(els) == k;
      assert "" + Segments(k) == Segments(k);
    } else {
      assert Kept(els)[1..] == k;
    }
  }

  lemma {:induction false} UnquoteName(e: string, t: string)
    requires '\'' !in e
    ensures EraseAll(("['" + e + "']") + t, "'") == "[" + (e + ("]" + EraseAll(t, "'")))
  {
    var u := "]" + t;
    ReplaceSkips("]", t, "'", "");
    ReplaceMatch(u, "'", "");
    ReplaceSkips(e, "'" + u, "'", "");
    ReplaceMatch(e + ("'" + u), "'", "");
    ReplaceSkips("[", "'" + (e + ("'" + u)), "'", "");
    assert ("['" + e + "']") + t == "[" + ("'" + (e + ("'" + u)));
    assert forall x: string :: "" + x == x;
  }

  lemma {:induction false} UnquoteStar(t: string)
    ensures EraseAll("[*]" + t, "'") == "[" + ("*" + ("]" + EraseAll(t, "'")))
  {
    ReplaceSkips("[*]", t, "'", "");
    var u := EraseAll(t, "'");
    assert "[*]" + u == "[" + ("*" + ("]" + u));
  }

  lemma {:induction false} Unquote(els: seq<string>)
    requires AllClean(els)
    ensures EraseAll(Segments(els), "'") == Brackets(els)
    decreases |els|
  {
    if els != [] {
      var e, t := els[0], Segments(els[1..]);
      assert Clean(e);
      Unquote(els[1..]);
      if e == "*" {
        UnquoteStar(t);
      } else {
        UnquoteName(e, t);
      }
    }
  }

  lemma {:induction false} Slashes(els: seq<string>)
    requires els != [] && AllClean(els)
    ensures ReplaceAll(Brackets(els), "][", "/") == "[" + (Join(els, '/') + "]")
    decreases |els|
  {
    var e, rest := els[0], els[1..];
    assert Clean(e);
    var u := "]" + Brackets(rest);
    ReplaceSkips(e, u, "][", "/");
    ReplaceSkips("[", e + u, "][", "/");
    if rest == [] {
      assert u == "]";
      assert ReplaceAll(u, "][", "/") == "]";
    } else {
      Slashes(rest);
      SlashNext(rest);
      Cat(e, "/", Join(rest, '/') + "]");
      Cat(e + "/", Join(rest, '/'), "]");
      assert Join(els, '/') == e + "/" + Join(rest, '/');
    }
  }

  lemma {:induction false} SlashNext(rest: seq<string>)
    requires rest != [] && ReplaceAll(Brackets(rest), "][", "/") == "[" + (Join(rest, '/') + "]")
    ensures ReplaceAll("]" + Brackets(rest), "][", "/") == "/" + (Join(rest, '/') + "]")
  {
    var t := rest[0] + ("]" + Brackets(rest[1..]));
    assert Brackets(rest) == "[" + t && "]" + ("[" + t) == "][" + t;
    ReplaceMatch(t, "][", "/");
    ReplaceSkips("[", t, "][", "/");
    var r, j := ReplaceAll(t, "][", "/"), Join(rest, '/') + "]";
    assert "[" + r == "[" + j;
    assert ("[" + r)[1..] == r && ("[" + j)[1..] == j;
  }

  /** What the passes make of any clean path: its elements without those named children. */
  lemma {:induction false} JsonToGen2Exact(els: seq<string>)
    requires els != [] && AllClean(els)
    ensures JsonToGen2("$" + Body(els)) == if Kept(els) == [] then "$" else Join(Kept(els), '/')
  {
    var k := Kept(els);
    KeptClean(els);
    ReplaceSkips("$", Body(els), CHILDREN, "");
    EraseBody(els);
    ReplaceSkips("$", Segments(k), "'", "");
    Unquote(k);
    ReplaceSkips("$", Brackets(k), "][", "/");
    if k == [] {
      assert ReplaceAll("", "][", "/") == "" && "$" + "" == "$";
    } else {
      Slashes(k);
      Trim(Join(k, '/'));
    }
  }

  /** The last two passes cut the brackets around what is left. */
  lemma {:induction false} Trim(j: string)
    ensures EraseLast(EraseFirst("$" + ("[" + (j + "]")), "$["), "]") == j
  {
    var c, d := "$" + ("[" + (j + "]")), j + "]";
    assert c[..2] == "$[" && c[2..] == d;
    assert d[|d| - 1..] == "]" && d[..|d| - 1] == j;
  }

  lemma {:induction false} KeptClean(els: seq<string>)
    requires AllClean(els)
    ensures AllClean(Kept(els)) && |Kept(els)| <= |els|
    ensures "children" !in els <==> Kept(els) == els
    decreases |els|
  {
    if els != [] {
      KeptClean(els[1..]);
      assert els == [els[0]] + els[1..];
    }
  }

  lemma {:induction false} KeptShorter(els: seq<string>)
    requires els != [] && Kept(els) != []
    ensures |Join(Kept(els), '/')| <= |Join(els, '/')|
    ensures Kept(els) != els ==> |Join(Kept(els), '/')| < |Join(els, '/')|
    decreases |els|
  {
    var e, rest, k := els[0], els[1..], Kept(els[1..]);
    assert els == [e] + rest;
    if e == "children" {
      assert Kept(els) == k;
    } else {
      assert Kept(els) == [e] + k && Kept(els)[1..] == k;
    }
    if k != [] {
      KeptShorter(rest);
      assert Join(els, '/') == e + "/" + Join(rest, '/');
      if e != "children" {
        assert Join(Kept(els), '/') == e + "/" + Join(k, '/');
      }
    }
  }

  /** Elements of a slash path: no quote or bracket anywhere. */
  predicate CleanPath(p: string) {
    Clean(p)
  }

  lemma {:induction false} CleanElements(p: string)
    requires CleanPath(p)
    ensures AllClean(Split(p, '/'))
  {
    forall e | e in Split(p, '/') ensures Clean(e) {
      SplitParts(p, '/', e);
    }
  }

  /**
    Path round trip: for every slash path without quotes or brackets, wildcards and empty
    elements included, converting to JSONPath and back gives the path again if and only if no
    element is the word children.
   */
  lemma {:induction false} RoundTrip(p: string)
    requires CleanPath(p)
    ensures JsonToGen2(Gen2ToJson(p)) == p <==> "children" !in Split(p, '/')
  {
    var els := Split(p, '/');
    CleanElements(p);
    JoinSplit(p, '/');
    JsonToGen2Exact(els);
    KeptClean(els);
    if Kept(els) == [] {
      NoneKept(els);
    } else {
      KeptShorter(els);
    }
  }

  lemma {:induction false} NoneKept(els: seq<string>)
    requires els != [] && Kept(els) == []
    ensures "children" in els && |Join(els, '/')| >= 8
  {
    assert els[0] == "children";
  }

  /** The first closing bracket ends a segment, so a rendering starts with one segment only. */
  lemma {:induction false} SameFirst(e: string, f: string, t: string, u: string)
    requires ']' !in e && ']' !in f && Segment(e) + t == Segment(f) + u
    ensures e == f && t == u
  {
    var a, b := Segment(e), Segment(f);
    FirstBracket(e);
    FirstBracket(f);
    assert (a + t)[|a| - 1] == ']' && (b + u)[|b| - 1] == ']';
    assert |a| == |b|;
    assert a == (a + t)[..|a|] == b && t == (a + t)[|a|..] == u;
    assert e != "*" ==> a[1] == '\'' && e == a[2..|a| - 2];
    assert f != "*" ==> b[1] == '\'' && f == b[2..|b| - 2];
  }

  lemma {:induction false} FirstBracket(e: string)
    requires ']' !in e
    ensures var s := Segment(e); s[|s| - 1] == ']' && forall i | 0 <= i < |s| - 1 :: s[i] != ']'
  {
    var s := Segment(e);
    if e != "*" {
      forall i | 0 <= i < |s| - 1 ensures s[i] != ']' {
        assert 2 <= i < 2 + |e| ==> s[i] == e[i - 2] && e[i - 2] in e;
      }
    }
  }

  lemma {:induction false} BodyInjective(a: seq<string>, b: seq<string>)
    requires a != [] && b != [] && Body(a) == Body(b)
    requires (forall e | e in a :: ']' !in e) && (forall e | e in b :: ']' !in e)
    ensures a == b
    decreases |a|
  {
    var t := if |a| == 1 then "" else CHILDREN + Body(a[1..]);
    var u := if |b| == 1 then "" else CHILDREN + Body(b[1..]);
    assert Segment(a[0]) + "" == Segment(a[0]) && Segment(b[0]) + "" == Segment(b[0]);
    SameFirst(a[0], b[0], t, u);
    if |a| > 1 && |b| > 1 {
      assert t[|CHILDREN|..] == Body(a[1..]) && u[|CHILDREN|..] == Body(b[1..]);
      BodyInjective(a[1..], b[1..]);
      assert a == [a[0]] + a[1..] && b == [b[0]] + b[1..];
    }
  }

  /** gen2tojson is injective on all paths without a closing bracket, children elements included. */
  lemma {:induction false} Gen2ToJsonInjective(p: string, q: string)
    requires ']' !in p && ']' !in q
    ensures Gen2ToJson(p) == Gen2ToJson(q) <==> p == q
  {
    if Gen2ToJson(p) == Gen2ToJson(q) {
      var a, b := Split(p, '/'), Split(q, '/');
      forall e | e in a ensures ']' !in e { SplitParts(p, '/', e); }
      forall e | e in b ensures ']' !in e { SplitParts(q, '/', e); }
      assert Gen2ToJson(p)[1..] == Body(a) && Gen2ToJson(q)[1..] == Body(b);
      BodyInjective(a, b);
      JoinSplit(p, '/');
      JoinSplit(q, '/');
    }
  }

  // ------------------------------------------------------------------ the path object

  datatype VSSPath = VSSPath(vss: string, gen1: string, json: string, gen1Origin: bool)

  function FromVSS(input: string): VSSPath {
    if '.' !in input then VSSPath(input, Gen2ToGen1(input), Gen2ToJson(input), false)
    else VSSPath(Gen1ToGen2(input), input, Gen2ToJson(Gen1ToGen2(input)), true)
  }

  function FromVSSGen2(input: string): VSSPath {
    VSSPath(input, Gen2ToGen1(input), Gen2ToJson(input), false)
  }

  function FromVSSGen1(input: string): VSSPath {
    VSSPath(Gen1ToGen2(input), input, Gen2ToJson(Gen1ToGen2(input)), true)
  }

  function FromJSON(input: string, gen1: bool): VSSPath {
    VSSPath(JsonToGen2(input), Gen2ToGen1(JsonToGen2(input)), input, gen1)
  }

  predicate SameStrings(a: VSSPath, b: VSSPath) {
    a.vss == b.vss && a.gen1 == b.gen1 && a.json == b.json
  }

  lemma {:induction false} ThereAndBack(s: string)
    requires '.' !in s
    ensures Gen1ToGen2(Gen2ToGen1(s)) == s
  {
    forall i | 0 <= i < |s| ensures Gen1ToGen2(Gen2ToGen1(s))[i] == s[i] {
      assert s[i] in s;
    }
  }

  lemma {:induction false} NoSlashSame(s: string)
    requires '/' !in s
    ensures Gen2ToGen1(s) == s
  {
    forall i | 0 <= i < |s| ensures Gen2ToGen1(s)[i] == s[i] {
      assert s[i] in s;
    }
  }

  /**
    The slash spelling and the dot spelling of one path give path objects equal in all three
    strings, exactly when the slash spelling does not mix both separators.
   */
  lemma {:induction false} DotAndSlashAgree(p: string)
    ensures SameStrings(FromVSS(p), FromVSS(Gen2ToGen1(p))) <==> '.' !in p || '/' !in p
  {
    var d := Gen2ToGen1(p);
    if '/' !in p {
      NoSlashSame(p);
    } else {
      var i :| 0 <= i < |p| && p[i] == '/';
      assert d[i] == '.';
      assert FromVSS(d).gen1 == d;
      if '.' !in p {
        ThereAndBack(p);
      } else {
        assert FromVSS(p).gen1[i] == '/';
      }
    }
  }

  /** The two fixed constructors agree on the two spellings of a path if and only if it has no dot of its own. */
  lemma {:induction false} Gen1AndGen2Agree(p: string)
    ensures SameStrings(FromVSSGen1(Gen2ToGen1(p)), FromVSSGen2(p)) <==> '.' !in p
  {
    if '.' !in p {
      ThereAndBack(p);
    } else {
      var i :| 0 <= i < |p| && p[i] == '.';
      assert FromVSSGen1(Gen2ToGen1(p)).vss[i] == '/';
    }
  }

  /** A path object rebuilt from its own JSONPath has the same three strings, children elements apart. */
  lemma {:induction false} FromJsonAgrees(p: string, gen1: bool)
    requires CleanPath(p)
    ensures SameStrings(FromJSON(FromVSSGen2(p).json, gen1), FromVSSGen2(p)) <==> "children" !in Split(p, '/')
  {
    RoundTrip(p);
  }

  // ------------------------------------------------------------------ the tokeniser

  /** A concrete JSONPath: every name in quotes and brackets. */
  function Render(names: seq<string>): string {
    if names == [] then "" else ("['" + names[0] + "']") + Render(names[1..])
  }

  /** The elements with the word children between them. */
  function Interleave(els: seq<string>): seq<string> {
    if |els| <= 1 then els else [els[0]] + (["children"] + Interleave(els[1..]))
  }

  const OPEN := {'[', '\''}
  const CLOSE := {'\'', ']'}

  function Left(tok: Option<Token>): nat {
    match tok case Some(t) => |t.rest| + 1 case None => 0
  }

  /** The alternating tokeniser from `tok` on: even tokens are kept, and each picks the next delimiters. */
  function TokensFrom(tok: Option<Token>, even: bool): seq<string>
    decreases Left(tok)
  {
    if tok.None? then []
    else if even then [tok.value.text] + TokensFrom(Strtok(tok.value.rest, CLOSE), false)
    else TokensFrom(Strtok(tok.value.rest, OPEN), true)
  }

  function VssTokens(path: string): seq<string> {
    TokensFrom(Strtok(path, OPEN), false)
  }

  /** The strtok call at the end of each round. */
  method NextToken(t: Token, even: bool) returns (next: Option<Token>)
    ensures even ==> TokensFrom(Some(t), even) == [t.text] + TokensFrom(next, false)
    ensures !even ==> TokensFrom(Some(t), even) == TokensFrom(next, true)
    ensures Left(next) < Left(Some(t))
  {
    if even {
      next := Strtok(t.rest, CLOSE);
    } else {
      next := Strtok(t.rest, OPEN);
    }
  }

  method GetVSSTokens(path: string) returns (tokens: seq<string>)
    ensures tokens == VssTokens(path)
  {
    tokens := [];
    var tok := Strtok(path, OPEN);
    ghost var all, even := TokensFrom(tok, false), false;
    var count := 1;
    while tok.Some?
      invariant count % 2 == if even then 0 else 1
      invariant all == tokens + TokensFrom(tok, even)
      decreases Left(tok)
    {
      var tokString := tok.value.text;
      ghost var before := TokensFrom(tok, even);
      tok := NextToken(tok.value, count % 2 == 0);
      if count % 2 == 0 {
        assert before == [tokString] + TokensFrom(tok, false);
        KeepToken(tokens, tokString, TokensFrom(tok, false));
        tokens := tokens + [tokString];
      } else {
        assert before == TokensFrom(tok, true);
      }
      Parity(count);
      count := count + 1;
      even := !even;
    }
  }

  lemma {:induction false} Parity(n: int)
    ensures (n + 1) % 2 == 1 - n % 2
  {
  }

  lemma {:induction false} KeepToken(tokens: seq<string>, t: string, rest: seq<string>)
    ensures tokens + ([t] + rest) == (tokens + [t]) + rest
  {
  }

  predicate Names(names: seq<string>) {
    AllClean(names) && "" !in names
  }

  /** The token of a name, with its opening quote still to skip or already consumed. */
  lemma {:induction false} NameToken(quote: string, e: string, t: string)
    requires Clean(e) && e != "" && (quote == "" || quote == "'")
    ensures Strtok(quote + (e + ("']" + t)), OPEN) == Some(Token(e, "]" + t))
  {
    StrtokCuts(quote, e, '\'', "]" + t, OPEN);
    assert quote + (e + ("']" + t)) == quote + e + ['\''] + ("]" + t);
  }

  /** Between two names the tokeniser sees one token, the opening bracket. */
  lemma {:induction false} BracketToken(f: string, u: string)
    ensures Strtok("]" + (("['" + f + "']") + u), CLOSE) == Some(Token("[", f + ("']" + u)))
  {
    StrtokCuts("]", "[", '\'', f + ("']" + u), CLOSE);
    assert "]" + (("['" + f + "']") + u) == "]" + "[" + ['\''] + (f + ("']" + u));
  }

  /** From just before a name. */
  lemma {:induction false} NameTokens(prev: string, quote: string, names: seq<string>)
    requires names != [] && Names(names) && (quote == "" || quote == "'")
    ensures TokensFrom(Some(Token(prev, quote + (names[0] + ("']" + Render(names[1..]))))), false) == names
    decreases |names|
  {
    var e, rest := names[0], names[1..];
    var t := Render(rest);
    assert Clean(e) && e != "";
    NameToken(quote, e, t);
    var after := Strtok("]" + t, CLOSE);
    assert names == [e] + rest;
    if rest == [] {
      assert "]" + t == "]";
      assert after.None? && TokensFrom(after, false) == [];
      assert TokensFrom(Some(Token(e, "]" + t)), true) == [e] + TokensFrom(after, false);
    } else {
      BracketToken(rest[0], Render(rest[1..]));
      NameTokens("[", "", rest);
      var u := rest[0] + ("']" + Render(rest[1..]));
      assert "" + u == u;
    }
  }

  /** The tokeniser undoes the rendering of every list of names, of any length. */
  lemma {:induction false} TokensOfRender(names: seq<string>)
    requires Names(names)
    ensures VssTokens("$" + Render(names)) == names
  {
    if names == [] {
      assert "$" + Render(names) == "$";
      assert Strtok("$", OPEN) == Some(Token("$", ""));
      assert Strtok("", OPEN).None?;
    } else {
      var t := "'" + (names[0] + ("']" + Render(names[1..])));
      assert "$" + Render(names) == "" + "$" + ['['] + t;
      StrtokCuts("", "$", '[', t, OPEN);
      NameTokens("$", "'", names);
    }
  }

  lemma {:induction false} BodyIsRender(els: seq<string>)
    requires els != [] && "*" !in els
    ensures Body(els) == Render(Interleave(els))
    decreases |els|
  {
    assert els[0] != "*";
    if |els| == 1 {
      RenderCons(els[0], []);
      assert els == [els[0]] + [] && Segment(els[0]) + "" == Segment(els[0]);
    } else {
      BodyIsRender(els[1..]);
      RenderCons("children", Interleave(els[1..]));
      RenderCons(els[0], ["children"] + Interleave(els[1..]));
    }
  }

  lemma {:induction false} RenderCons(n: string, names: seq<string>)
    requires n != "*"
    ensures Render([n] + names) == Segment(n) + Render(names)
    ensures Segment("children") == CHILDREN
  {
    assert ([n] + names)[1..] == names;
  }

  lemma {:induction false} InterleaveNames(els: seq<string>)
    requires Names(els)
    ensures Names(Interleave(els))
    decreases |els|
  {
    if |els| > 1 {
      InterleaveNames(els[1..]);
    }
  }

  /** Tokeniser inverse: the tokens of a concrete path are its elements, children in between. */
  lemma {:induction false} TokeniserInverse(els: seq<string>)
    requires els != [] && Names(els) && "*" !in els && (forall e | e in els :: '/' !in e)
    ensures VssTokens(Gen2ToJson(Join(els, '/'))) == Interleave(els)
  {
    SplitJoin(els, '/');
    BodyIsRender(els);
    InterleaveNames(els);
    TokensOfRender(Interleave(els));
  }
}
