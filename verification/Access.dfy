/**
  Permission patterns: the matching loop of checkSignalAccess, and the regular expressions that
  permission keys and MQTT publish paths are lowered to.
 */
module Access {
  import opened Ordering
  import VssPath

  // ------------------------------------------------------------------ patterns

  /** A lowered pattern of names, '.' and '*': literals, any character, any run of characters. */
  datatype Tok = Lit(c: char) | Any | AnyRun

  /** "*" becomes ".*"; a "." stays, and in a regular expression it is any character. */
  function Lower(pattern: string): seq<Tok> {
    if pattern == "" then []
    else [if pattern[0] == '*' then AnyRun else if pattern[0] == '.' then Any else Lit(pattern[0])]
         + Lower(pattern[1..])
  }

  /** What a regular-expression dot matches: everything but a line end. */
  predicate DotMatches(c: char) {
    c != '\n' && c != '\r'
  }

  /** std::regex_match of the whole string. */
  predicate Matches(re: seq<Tok>, s: string)
    decreases |re|, |s|
  {
    if re == [] then s == ""
    else
      match re[0]
      case Lit(c) => s != "" && s[0] == c && Matches(re[1..], s[1..])
      case Any => s != "" && DotMatches(s[0]) && Matches(re[1..], s[1..])
      case AnyRun => Matches(re[1..], s) || (s != "" && DotMatches(s[0]) && Matches(re, s[1..]))
  }

  /** Declaratively: the string is cut into one piece per token, each piece fitting its token. */
  predicate FitsPiece(t: Tok, p: string) {
    match t
    case Lit(c) => p == [c]
    case Any => |p| == 1 && DotMatches(p[0])
    case AnyRun => forall i | 0 <= i < |p| :: DotMatches(p[i])
  }

  function Concat(pieces: seq<string>): string {
    if pieces == [] then "" else pieces[0] + Concat(pieces[1..])
  }

  ghost predicate CutsTo(re: seq<Tok>, s: string, pieces: seq<string>) {
    |pieces| == |re| && Concat(pieces) == s && forall i | 0 <= i < |re| :: FitsPiece(re[i], pieces[i])
  }

  lemma {:induction false} CutFromMatch(re: seq<Tok>, s: string) returns (pieces: seq<string>)
    requires Matches(re, s)
    ensures CutsTo(re, s, pieces)
    decreases |re|, |s|
  {
    if re == [] {
      pieces := [];
    } else if re[0].AnyRun? && !Matches(re[1..], s) {
      var rest := CutFromMatch(re, s[1..]);
      pieces := [[s[0]] + rest[0]] + rest[1..];
      assert FitsPiece(re[0], rest[0]);
      assert Concat(pieces) == ([s[0]] + rest[0]) + Concat(rest[1..]) == [s[0]] + Concat(rest);
    } else {
      var p := if re[0].AnyRun? then "" else [s[0]];
      var rest := CutFromMatch(re[1..], if re[0].AnyRun? then s else s[1..]);
      pieces := [p] + rest;
      assert pieces[1..] == rest;
    }
  }

  lemma {:induction false} MatchFromCut(re: seq<Tok>, s: string, pieces: seq<string>)
    requires CutsTo(re, s, pieces)
    ensures Matches(re, s)
    decreases |re|, |s|
  {
    if re != [] {
      var p, rest := pieces[0], pieces[1..];
      assert FitsPiece(re[0], p);
      forall i | 0 <= i < |re| - 1 ensures FitsPiece(re[1..][i], rest[i]) {
        assert FitsPiece(re[i + 1], pieces[i + 1]);
      }
      if re[0].AnyRun? && p != "" {
        var q := [p[1..]] + rest;
        assert q[1..] == rest;
        assert s[1..] == p[1..] + Concat(rest);
        MatchFromCut(re, s[1..], q);
      } else if re[0].AnyRun? {
        assert s == Concat(rest);
        MatchFromCut(re[1..], s, rest);
      } else {
        assert s[0] == p[0] && s[1..] == Concat(rest);
        MatchFromCut(re[1..], s[1..], rest);
      }
    }
  }

  /** The matcher is the declarative meaning of the pattern. */
  lemma {:induction false} MatchesIff(re: seq<Tok>, s: string)
    ensures Matches(re, s) <==> exists pieces :: CutsTo(re, s, pieces)
  {
    if Matches(re, s) {
      var pieces := CutFromMatch(re, s);
    }
    if exists pieces :: CutsTo(re, s, pieces) {
      var pieces :| CutsTo(re, s, pieces);
      MatchFromCut(re, s, pieces);
    }
  }

  // ------------------------------------------------------------------ what a key means

  /** What the character `c` of a key stands for: a star for any run, a dot for any one character. */
  predicate PieceOf(c: char, p: string) {
    if c == '*' then '\n' !in p && '\r' !in p
    else if c == '.' then |p| == 1 && p[0] != '\n' && p[0] != '\r'
    else p == [c]
  }

  /** A key matches a path that can be cut into one piece per character of the key. */
  ghost predicate KeyMatches(key: string, path: string) {
    exists pieces: seq<string> {:trigger Concat(pieces)} ::
      |pieces| == |key| && Concat(pieces) == path && forall i | 0 <= i < |key| :: PieceOf(key[i], pieces[i])
  }

  lemma {:induction false} LowerAt(key: string, i: nat, p: string)
    requires i < |key|
    ensures |Lower(key)| == |key| && (FitsPiece(Lower(key)[i], p) <==> PieceOf(key[i], p))
    decreases |key|
  {
    if i == 0 {
      LowerLength(key);
    } else {
      LowerAt(key[1..], i - 1, p);
    }
  }

  lemma {:induction false} LowerLength(key: string)
    ensures |Lower(key)| == |key|
    decreases |key|
  {
    if key != "" {
      LowerLength(key[1..]);
    }
  }

  /** The regular expression that a key is lowered to matches exactly what the key means. */
  lemma {:induction false} LoweredMatchesIff(key: string, path: string)
    ensures Matches(Lower(key), path) <==> KeyMatches(key, path)
  {
    MatchesIff(Lower(key), path);
    LowerLength(key);
    forall i, p | 0 <= i < |key| ensures FitsPiece(Lower(key)[i], p) <==> PieceOf(key[i], p) {
      LowerAt(key, i, p);
    }
    if pieces: seq<string> :| CutsTo(Lower(key), path, pieces) {
      assert Concat(pieces) == path;
      forall i | 0 <= i < |key| ensures PieceOf(key[i], pieces[i]) {
        assert FitsPiece(Lower(key)[i], pieces[i]);
      }
    }
    if pieces: seq<string> :| |pieces| == |key| && Concat(pieces) == path
                              && forall i | 0 <= i < |key| :: PieceOf(key[i], pieces[i]) {
      assert CutsTo(Lower(key), path, pieces);
    }
  }

  // ------------------------------------------------------------------ dot and slash spellings

  /** A pattern of names, dots and stars: no separator of the other spelling. */
  predicate NamePattern(pattern: string) {
    '/' !in pattern
  }

  ghost predicate NoSeparators(re: seq<Tok>) {
    forall i | 0 <= i < |re| && re[i].Lit? :: re[i].c != '.' && re[i].c != '/'
  }

  /** `t` is `s` with some dots written as slashes. */
  ghost predicate Respelled(s: string, t: string) {
    |s| == |t| && forall i | 0 <= i < |s| :: s[i] == t[i] || (s[i] == '.' && t[i] == '/')
  }

  lemma {:induction false} MatchRespelled(re: seq<Tok>, s: string, t: string)
    requires NoSeparators(re) && Respelled(s, t)
    ensures Matches(re, s) <==> Matches(re, t)
    decreases |re|, |s|
  {
    if re != [] {
      assert NoSeparators(re[1..]) by {
        forall i | 0 <= i < |re[1..]| && re[1..][i].Lit? ensures re[1..][i].c != '.' && re[1..][i].c != '/' {
          assert re[i + 1].Lit?;
        }
      }
      if re[0].AnyRun? {
        MatchRespelled(re[1..], s, t);
      }
      if s != "" {
        assert Respelled(s[1..], t[1..]) by {
          forall i | 0 <= i < |s[1..]| ensures s[1..][i] == t[1..][i] || (s[1..][i] == '.' && t[1..][i] == '/') {
            assert s[i + 1] == t[i + 1] || (s[i + 1] == '.' && t[i + 1] == '/');
          }
        }
        if re[0].AnyRun? {
          MatchRespelled(re, s[1..], t[1..]);
        } else {
          MatchRespelled(re[1..], s[1..], t[1..]);
        }
      }
    }
  }

  lemma {:induction false} LowerNoSeparators(pattern: string)
    requires NamePattern(pattern)
    ensures NoSeparators(Lower(pattern))
    decreases |pattern|
  {
    if pattern != "" {
      assert pattern[0] in pattern;
      LowerNoSeparators(pattern[1..]);
    }
  }

  /** A dotted pattern matches the dot spelling of a path exactly when it matches the slash spelling. */
  lemma {:induction false} SpellingDoesNotMatter(pattern: string, path: string)
    requires NamePattern(pattern)
    ensures Matches(Lower(pattern), path) <==> Matches(Lower(pattern), VssPath.Gen1ToGen2(path))
    ensures KeyMatches(pattern, path) <==> KeyMatches(pattern, VssPath.Gen1ToGen2(path))
  {
    LoweredMatchesIff(pattern, path);
    LoweredMatchesIff(pattern, VssPath.Gen1ToGen2(path));
    LowerNoSeparators(pattern);
    MatchRespelled(Lower(pattern), path, VssPath.Gen1ToGen2(path));
  }

  // ------------------------------------------------------------------ the permission loop

  type Entries = seq<(string, string)>

  ghost predicate Sorted(ps: Entries) {
    forall i, j | 0 <= i < j < |ps| :: Less(ps[i].0, ps[j].0)
  }

  /** A permission object: its keys in ascending order, as the library iterates over them. */
  type Permissions = ps: Entries | Sorted(ps) witness []

  /** get_with_default(path, ""). */
  function Lookup(ps: Entries, path: string): string {
    if ps == [] then "" else if ps[0].0 == path then ps[0].1 else Lookup(ps[1..], path)
  }

  /** permissionValue.find(required) != npos. */
  predicate Contains(s: string, sub: string) {
    (|sub| <= |s| && s[..|sub|] == sub) || (s != "" && Contains(s[1..], sub))
  }

  /** `sub` stands somewhere in `s`. */
  ghost predicate StandsIn(sub: string, s: string) {
    exists i: nat :: StandsAt(sub, s, i)
  }

  predicate StandsAt(sub: string, s: string, i: nat) {
    i + |sub| <= |s| && s[i..i + |sub|] == sub
  }

  lemma {:induction false} ContainsAt(s: string, sub: string, i: nat)
    requires StandsAt(sub, s, i)
    ensures Contains(s, sub)
    decreases i
  {
    if i == 0 {
      assert s[..|sub|] == s[0..|sub|];
    } else {
      assert s[1..][i - 1..i - 1 + |sub|] == s[i..i + |sub|];
      ContainsAt(s[1..], sub, i - 1);
    }
  }

  lemma {:induction false} FoundIndex(s: string, sub: string) returns (i: nat)
    requires Contains(s, sub)
    ensures StandsAt(sub, s, i)
    decreases |s|
  {
    if |sub| <= |s| && s[..|sub|] == sub {
      i := 0;
    } else {
      var k := FoundIndex(s[1..], sub);
      assert s[1..][k..k + |sub|] == s[k + 1..k + 1 + |sub|];
      i := k + 1;
    }
  }

  lemma {:induction false} ContainsIff(s: string, sub: string)
    ensures Contains(s, sub) <==> StandsIn(sub, s)
  {
    if Contains(s, sub) {
      var i := FoundIndex(s, sub);
    }
    if i: nat :| StandsAt(sub, s, i) {
      ContainsAt(s, sub, i);
    }
  }

  /** The permission object has a non-empty entry for exactly this path. */
  ghost predicate ExactEntry(ps: Permissions, path: string, value: string) {
    value != "" && (path, value) in ps
  }

  lemma {:induction false} LookupIff(ps: Permissions, path: string, value: string)
    ensures ExactEntry(ps, path, value) <==> value != "" && Lookup(ps, path) == value
    decreases |ps|
  {
    if ps != [] {
      LookupIff(ps[1..], path, value);
      assert ps == [ps[0]] + ps[1..];
      if ps[0].0 == path && (path, value) in ps[1..] {
        var i :| 0 <= i < |ps[1..]| && ps[1..][i] == (path, value);
        assert Less(ps[0].0, ps[i + 1].0);
        LessIrreflexive(path);
      }
    }
  }

  ghost predicate MatchesAt(ps: Permissions, path: string, i: nat) {
    i < |ps| && KeyMatches(ps[i].0, path)
  }

  /** Entry `i` matches and no later one does. */
  ghost predicate LastMatch(ps: Permissions, path: string, i: nat) {
    MatchesAt(ps, path, i) && forall j: nat | i < j :: !MatchesAt(ps, path, j)
  }

  ghost predicate NoMatch(ps: Permissions, path: string) {
    forall j: nat :: !MatchesAt(ps, path, j)
  }

  /**
    What decides: a non-empty entry for exactly this path; otherwise the last matching key in
    key order, also when its permission is empty; without any match the empty permission.
   */
  ghost predicate Granted(ps: Permissions, path: string, required: string) {
    if exists value :: ExactEntry(ps, path, value) then
      exists value :: ExactEntry(ps, path, value) && StandsIn(required, value)
    else if NoMatch(ps, path) then StandsIn(required, "")
    else exists i: nat :: LastMatch(ps, path, i) && StandsIn(required, ps[i].1)
  }

  /** At most one entry is exact, so it decides alone. */
  lemma {:induction false} ExactDecides(ps: Permissions, path: string, required: string, value: string)
    requires ExactEntry(ps, path, value)
    ensures Granted(ps, path, required) <==> StandsIn(required, value)
  {
    LookupIff(ps, path, value);
    forall other | ExactEntry(ps, path, other) ensures other == value {
      LookupIff(ps, path, other);
    }
  }

  /** At most one entry is the last match, so without an exact entry it decides alone. */
  lemma {:induction false} LastMatchDecides(ps: Permissions, path: string, required: string, i: nat)
    requires LastMatch(ps, path, i) && !exists value :: ExactEntry(ps, path, value)
    ensures Granted(ps, path, required) <==> StandsIn(required, ps[i].1)
  {
    forall j: nat | LastMatch(ps, path, j) ensures j == i {
      assert j < i ==> !MatchesAt(ps, path, i);
      assert i < j ==> !MatchesAt(ps, path, j);
    }
  }

  /** In a permission object the last match is the greatest matching key. */
  lemma {:induction false} LastIsGreatest(ps: Permissions, path: string, i: nat, j: nat)
    requires LastMatch(ps, path, i) && MatchesAt(ps, path, j) && j != i
    ensures Less(ps[j].0, ps[i].0)
  {
    assert j < i;
  }

  /** The loop of checkSignalAccess, which overwrites permissionValue at every match. */
  method CheckSignalAccess(ps: Permissions, path: string, required: string) returns (granted: bool)
    ensures granted <==> Granted(ps, path, required)
  {
    var permissionValue := Lookup(ps, path);
    LookupIff(ps, path, permissionValue);
    if permissionValue == "" {
      forall value ensures !ExactEntry(ps, path, value) {
        LookupIff(ps, path, value);
      }
      permissionValue := LastPermission(ps, path, required);
    } else {
      ExactDecides(ps, path, required, permissionValue);
    }
    ContainsIff(permissionValue, required);
    granted := Contains(permissionValue, required);
  }

  method LastPermission(ps: Permissions, path: string, ghost required: string) returns (permissionValue: string)
    requires !exists value :: ExactEntry(ps, path, value)
    ensures Granted(ps, path, required) <==> StandsIn(required, permissionValue)
  {
    permissionValue := "";
    ghost var last: int := -1;
    for i := 0 to |ps|
      invariant -1 <= last < i
      invariant last == -1 ==> permissionValue == ""
      invariant last >= 0 ==> permissionValue == ps[last].1 && MatchesAt(ps, path, last)
      invariant forall j: nat | last < j < i :: !MatchesAt(ps, path, j)
    {
      LoweredMatchesIff(ps[i].0, path);
      if Matches(Lower(ps[i].0), path) {
        permissionValue := ps[i].1;
        last := i;
      }
    }
    if last >= 0 {
      LastMatchDecides(ps, path, required, last);
    }
  }

  /** Every path of the list may be written. */
  method CheckPathWriteAccess(ps: Permissions, jsonPaths: seq<string>) returns (ok: bool)
    ensures ok <==> forall p | p in jsonPaths :: Granted(ps, VssPath.FromJSON(p, false).gen1, "w")
  {
    for i := 0 to |jsonPaths|
      invariant forall j | 0 <= j < i :: Granted(ps, VssPath.FromJSON(jsonPaths[j], false).gen1, "w")
    {
      var granted := CheckSignalAccess(ps, VssPath.FromJSON(jsonPaths[i], false).gen1, "w");
      if !granted {
        assert jsonPaths[i] in jsonPaths;
        return false;
      }
    }
    return true;
  }
}
