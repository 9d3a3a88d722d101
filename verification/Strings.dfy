/** The string passes the server is built on: split, join, erase, replace, and the C tokeniser. */
module Strings {
  import opened Basics

  // ------------------------------------------------------------------ split and join

  /** boost::split on one separator, without compressing empty tokens. */
  function Split(s: string, c: char): (parts: seq<string>)
    ensures parts != []
  {
    if s == "" then [""]
    else
      var rest := Split(s[1..], c);
      if s[0] == c then [""] + rest else [[s[0]] + rest[0]] + rest[1..]
  }

  function Join(parts: seq<string>, c: char): string
    requires parts != []
  {
    if |parts| == 1 then parts[0] else parts[0] + [c] + Join(parts[1..], c)
  }

  lemma {:induction false} JoinSplit(s: string, c: char)
    ensures Join(Split(s, c), c) == s
    decreases |s|
  {
    if s != "" {
      var rest, parts := Split(s[1..], c), Split(s, c);
      JoinSplit(s[1..], c);
      assert [s[0]] + s[1..] == s;
      if s[0] == c {
        assert parts[1..] == rest;
        assert "" + [c] + Join(rest, c) == [c] + Join(rest, c);
      } else {
        assert parts[1..] == rest[1..];
        if |rest| > 1 {
          var j := Join(rest[1..], c);
          assert ([s[0]] + rest[0]) + [c] + j == [s[0]] + (rest[0] + [c] + j);
        }
      }
    }
  }

  lemma {:induction false} SplitParts(s: string, c: char, p: string)
    requires p in Split(s, c)
    ensures c !in p && forall x | x in p :: x in s
    decreases |s|
  {
    if s != "" {
      var rest := Split(s[1..], c);
      assert forall x | x in s[1..] :: x in s;
      if s[0] == c {
        assert p == "" || p in rest;
        if p != "" {
          SplitParts(s[1..], c, p);
        }
      } else {
        assert p == [s[0]] + rest[0] || p in rest[1..];
        if p in rest {
          SplitParts(s[1..], c, p);
        }
        SplitParts(s[1..], c, rest[0]);
      }
    }
  }

  lemma {:induction false} SplitJoin(parts: seq<string>, c: char)
    requires parts != [] && forall p | p in parts :: c !in p
    ensures Split(Join(parts, c), c) == parts
    decreases |parts|
  {
    if |parts| == 1 {
      SplitPiece(parts[0], c);
      assert [parts[0]] == parts;
    } else {
      SplitJoin(parts[1..], c);
      SplitFirst(parts[0], Join(parts[1..], c), c);
      assert Join(parts, c) == parts[0] + [c] + Join(parts[1..], c);
      assert [parts[0]] + parts[1..] == parts;
    }
  }

  lemma {:induction false} SplitPiece(p: string, c: char)
    requires c !in p
    ensures Split(p, c) == [p]
    decreases |p|
  {
    if p != "" {
      SplitPiece(p[1..], c);
      assert [p[0]] + p[1..] == p;
    }
  }

  lemma {:induction false} SplitFirst(p: string, t: string, c: char)
    requires c !in p
    ensures Split(p + [c] + t, c) == [p] + Split(t, c)
    decreases |p|
  {
    var s := p + [c] + t;
    if p == "" {
      assert s[1..] == t;
    } else {
      SplitFirst(p[1..], t, c);
      assert s[1..] == p[1..] + [c] + t;
      assert [p[0]] + p[1..] == p;
    }
  }

  // ------------------------------------------------------------------ replace and erase

  /** std::replace on characters. */
  function ReplaceChar(s: string, a: char, b: char): (r: string)
    ensures |r| == |s|
    ensures forall i | 0 <= i < |s| :: r[i] == if s[i] == a then b else s[i]
  {
    if s == "" then "" else [if s[0] == a then b else s[0]] + ReplaceChar(s[1..], a, b)
  }

  /** boost::replace_all: one pass from the left over non-overlapping matches. */
  function ReplaceAll(s: string, pat: string, sub: string): string
    requires pat != ""
  {
    if |s| < |pat| then s
    else if s[..|pat|] == pat then sub + ReplaceAll(s[|pat|..], pat, sub)
    else [s[0]] + ReplaceAll(s[1..], pat, sub)
  }

  function EraseAll(s: string, pat: string): string
    requires pat != ""
  {
    ReplaceAll(s, pat, "")
  }

  /** boost::erase_first. */
  function EraseFirst(s: string, pat: string): string {
    if |s| < |pat| then s
    else if s[..|pat|] == pat then s[|pat|..]
    else if s == "" then s
    else [s[0]] + EraseFirst(s[1..], pat)
  }

  /** boost::erase_last. */
  function EraseLast(s: string, pat: string): string {
    if |s| < |pat| then s
    else if s[|s| - |pat|..] == pat then s[..|s| - |pat|]
    else if s == "" then s
    else EraseLast(s[..|s| - 1], pat) + [s[|s| - 1]]
  }

  /** A stretch without the first character of the pattern is copied. */
  lemma {:induction false} ReplaceSkips(x: string, t: string, pat: string, sub: string)
    requires pat != "" && pat[0] !in x
    ensures ReplaceAll(x + t, pat, sub) == x + ReplaceAll(t, pat, sub)
    decreases |x|
  {
    if x == "" {
      assert x + t == t;
    } else {
      var s := x + t;
      ReplaceSkips(x[1..], t, pat, sub);
      assert s[1..] == x[1..] + t && s[0] == x[0] != pat[0];
      assert |s| >= |pat| ==> s[..|pat|][0] == s[0];
      ReplaceStep(s, pat, sub);
    }
  }

  /** Where the pattern does not begin one character is copied. */
  lemma {:induction false} ReplaceStep(s: string, pat: string, sub: string)
    requires pat != "" && s != "" && !(|s| >= |pat| && s[..|pat|] == pat)
    ensures ReplaceAll(s, pat, sub) == [s[0]] + ReplaceAll(s[1..], pat, sub)
  {
    assert s == [s[0]] + s[1..];
  }

  lemma {:induction false} ReplaceMatch(t: string, pat: string, sub: string)
    requires pat != ""
    ensures ReplaceAll(pat + t, pat, sub) == sub + ReplaceAll(t, pat, sub)
  {
    assert (pat + t)[..|pat|] == pat && (pat + t)[|pat|..] == t;
  }

  // ------------------------------------------------------------------ tokeniser

  datatype Token = Token(text: string, rest: string)

  function SkipDelims(s: string, delims: set<char>): (r: string)
    ensures |r| <= |s|
    ensures r != "" ==> r[0] !in delims
  {
    if s != "" && s[0] in delims then SkipDelims(s[1..], delims) else s
  }

  function TokenLength(s: string, delims: set<char>): (n: nat)
    ensures n <= |s|
    ensures forall i | 0 <= i < n :: s[i] !in delims
    ensures n < |s| ==> s[n] in delims
  {
    if s == "" || s[0] in delims then 0 else 1 + TokenLength(s[1..], delims)
  }

  /** One strtok call: skip delimiters, cut at the next one, remember what follows it. */
  function Strtok(s: string, delims: set<char>): (r: Option<Token>)
    ensures r.Some? ==> r.value.text != "" && |r.value.rest| < |s|
    ensures r.None? <==> forall c | c in s :: c in delims
  {
    var t := SkipDelims(s, delims);
    SkippedAll(s, delims);
    if t == "" then None
    else
      var n := TokenLength(t, delims);
      Some(Token(t[..n], if n < |t| then t[n + 1..] else ""))
  }

  lemma {:induction false} SkippedAll(s: string, delims: set<char>)
    ensures SkipDelims(s, delims) == "" <==> forall c | c in s :: c in delims
    decreases |s|
  {
    if s != "" && s[0] in delims {
      SkippedAll(s[1..], delims);
      assert s == [s[0]] + s[1..];
    } else if s != "" {
      assert s[0] in s;
    }
  }

  /** strtok on delimiters, then a token without delimiters, then one delimiter. */
  lemma {:induction false} StrtokCuts(skip: string, text: string, d: char, rest: string, delims: set<char>)
    requires forall c | c in skip :: c in delims
    requires text != "" && (forall c | c in text :: c !in delims) && d in delims
    ensures Strtok(skip + text + [d] + rest, delims) == Some(Token(text, rest))
  {
    var s := skip + text + [d] + rest;
    SkipsTo(skip, text + [d] + rest, delims);
    assert s == skip + (text + [d] + rest);
    var t := text + [d] + rest;
    assert t[0] == text[0];
    LengthIs(text, d, rest, delims);
    assert t[..|text|] == text && t[|text| + 1..] == rest;
  }

  lemma {:induction false} SkipsTo(skip: string, t: string, delims: set<char>)
    requires (forall c | c in skip :: c in delims) && t != "" && t[0] !in delims
    ensures SkipDelims(skip + t, delims) == t
    decreases |skip|
  {
    if skip == "" {
      assert skip + t == t;
    } else {
      assert (skip + t)[1..] == skip[1..] + t && skip[0] in skip;
      SkipsTo(skip[1..], t, delims);
    }
  }

  lemma {:induction false} LengthIs(text: string, d: char, rest: string, delims: set<char>)
    requires (forall c | c in text :: c !in delims) && d in delims
    ensures TokenLength(text + [d] + rest, delims) == |text|
    decreases |text|
  {
    if text != "" {
      assert (text + [d] + rest)[1..] == text[1..] + [d] + rest && text[0] in text;
      LengthIs(text[1..], d, rest, delims);
    }
  }
}
