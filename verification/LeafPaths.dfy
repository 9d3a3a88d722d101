/** Leaf enumeration: all signals below the nodes that a path selects. */
module LeafPaths {
  import opened Basics
  import opened Json
  import opened Strings
  import opened Ordering
  import opened Tree
  import opened TwinTree
  import VssPath

  /** A node the enumeration descends through. */
  predicate IsBranch(node: Json) {
    node.Obj? && "type" in node.fields && node.fields["type"] == Str("branch")
  }

  /** The slash spelling of a result path: what VSSPath::fromJSON makes of its JSONPath. */
  function Spelling(loc: Loc): string {
    VssPath.JsonToGen2("$" + VssPath.Render(VssPath.Interleave(loc)))
  }

  /** std::list::merge by a key: one linear pass, taking from `b` only what is strictly smaller. */
  function Merge(key: Loc -> string, a: seq<Loc>, b: seq<Loc>): (r: seq<Loc>)
    ensures multiset(r) == multiset(a) + multiset(b)
    decreases |a| + |b|
  {
    if b == [] then a
    else if a == [] then b
    else if Less(key(b[0]), key(a[0])) then
      assert b == [b[0]] + b[1..];
      [b[0]] + Merge(key, a, b[1..])
    else
      assert a == [a[0]] + a[1..];
      [a[0]] + Merge(key, a[1..], b)
  }

  // ------------------------------------------------------------------ what is enumerated

  ghost predicate BranchAt(root: Members, loc: Loc) {
    At(root, loc).Some? && IsBranch(At(root, loc).value)
  }

  /** `loc` is no branch, and from level `n` down to its parent everything is one. */
  ghost predicate LeafBelow(root: Members, n: nat, loc: Loc) {
    && At(root, loc).Some? && !IsBranch(At(root, loc).value)
    && forall i | n <= i < |loc| :: BranchAt(root, loc[..i])
  }

  /** The non-branch nodes reached from a match of the pattern by descending through branches. */
  ghost predicate Reached(root: Members, pat: seq<Sel>, loc: Loc) {
    |pat| <= |loc| && Found(root, pat, loc[..|pat|]) && LeafBelow(root, |pat|, loc)
  }

  /** Reached from one particular match. */
  ghost predicate ReachedFrom(root: Members, m: Loc, loc: Loc) {
    |m| <= |loc| && loc[..|m|] == m && LeafBelow(root, |m|, loc)
  }

  /**
    What is enumerated, in the words of the catalogue: the node exists and its type is not
    branch, a node above it or itself is selected by the pattern, and from that one down to its
    parent every type is branch.
   */
  lemma {:induction false} ReachedMeans(root: Members, pat: seq<Sel>, loc: Loc)
    ensures Reached(root, pat, loc) <==>
              && At(root, loc).Some? && Attr(At(root, loc), "type") != Some(Str("branch"))
              && |pat| <= |loc| && pat != [] && Fits(loc[..|pat|], pat)
              && At(root, loc[..|pat|]).Some?
              && forall i | |pat| <= i < |loc| :: Attr(At(root, loc[..i]), "type") == Some(Str("branch"))
  {
    forall i | 0 <= i <= |loc|
      ensures BranchAt(root, loc[..i]) <==> Attr(At(root, loc[..i]), "type") == Some(Str("branch"))
    {
    }
    assert loc[..|loc|] == loc;
  }

  lemma {:induction false} ReachedFromSome(root: Members, pat: seq<Sel>, loc: Loc)
    requires pat != []
    ensures Reached(root, pat, loc) <==> exists m :: m in Query(root, pat) && ReachedFrom(root, m, loc)
  {
    if Reached(root, pat, loc) {
      QueryExact(root, pat, loc[..|pat|]);
      assert ReachedFrom(root, loc[..|pat|], loc);
    }
    forall m | m in Query(root, pat) && ReachedFrom(root, m, loc) ensures Reached(root, pat, loc) {
      QueryExact(root, pat, m);
    }
  }

  /** Below a match that is a branch, the recursion enumerates what is reached from it. */
  lemma {:induction false} RecursionReaches(root: Members, m: Loc, loc: Loc)
    requires m != [] && BranchAt(root, m)
    ensures Reached(root, Names(m) + [Wild], loc) <==> ReachedFrom(root, m, loc)
  {
    var pat := Names(m) + [Wild];
    if ReachedFrom(root, m, loc) {
      assert |loc| == |m| ==> loc == m;
      var c := loc[..|m| + 1];
      assert forall i | 0 <= i < |m| :: c[i] == loc[..|m|][i];
      assert Fits(c, pat);
      PrefixExists(root, loc, |m| + 1);
    }
    if Reached(root, pat, loc) {
      var c := loc[..|pat|];
      forall i | 0 <= i < |m| ensures loc[i] == m[i] {
        assert Selects(pat[i], c[i]);
      }
      assert loc[..|m|] == m;
    }
  }

  /** Two different matches reach different leaves, in the order of the matches. */
  lemma {:induction false} MatchesApart(a: Loc, b: Loc, x: Loc, y: Loc)
    requires LocLess(a, b) && |a| == |b|
    requires |a| <= |x| && x[..|a|] == a && |b| <= |y| && y[..|b|] == b
    ensures LocLess(x, y)
    decreases |a|
  {
    assert x[0] == x[..|a|][0] && y[0] == y[..|b|][0];
    if !Less(a[0], b[0]) {
      assert x[1..][..|a| - 1] == x[..|a|][1..] && y[1..][..|b| - 1] == y[..|b|][1..];
      MatchesApart(a[1..], b[1..], x[1..], y[1..]);
    }
  }

  // ------------------------------------------------------------------ termination

  /** How deep the matches of a pattern still go. */
  ghost function Bound(root: Members, locs: seq<Loc>): nat {
    if locs == [] then 0
    else
      var h := match At(root, locs[0]) case Some(n) => 1 + Height(n) case None => 0;
      var r := Bound(root, locs[1..]);
      if h < r then r else h
  }

  lemma {:induction false} BoundCovers(root: Members, locs: seq<Loc>, i: nat)
    requires i < |locs| && At(root, locs[i]).Some?
    ensures Height(At(root, locs[i]).value) < Bound(root, locs)
    decreases i
  {
    if i > 0 {
      BoundCovers(root, locs[1..], i - 1);
    }
  }

  lemma {:induction false} BoundBelow(root: Members, locs: seq<Loc>, h: nat)
    requires forall l | l in locs :: At(root, l).Some? ==> Height(At(root, l).value) < h
    ensures Bound(root, locs) <= h
    decreases |locs|
  {
    if locs != [] {
      assert locs[0] in locs;
      BoundBelow(root, locs[1..], h);
    }
  }

  lemma {:induction false} RecursionDescends(root: Members, pat: seq<Sel>, i: nat)
    requires i < |Query(root, pat)|
    ensures
      var m := Query(root, pat)[i];
      m != [] && At(root, m).Some?
      && Bound(root, Query(root, Names(m) + [Wild])) < Bound(root, Query(root, pat))
  {
    var locs := Query(root, pat);
    var m := locs[i];
    QueryExact(root, pat, m);
    BoundCovers(root, locs, i);
    var node := At(root, m).value;
    var sub := Query(root, Names(m) + [Wild]);
    forall l | l in sub ensures At(root, l).Some? ==> Height(At(root, l).value) < Height(node) {
      KidOf(root, m, node, l);
    }
    BoundBelow(root, sub, Height(node));
  }

  lemma {:induction false} KidOf(root: Members, m: Loc, node: Json, l: Loc)
    requires m != [] && At(root, m) == Some(node) && l in Query(root, Names(m) + [Wild])
    ensures At(root, l).Some? && Height(At(root, l).value) < Height(node)
  {
    var pat := Names(m) + [Wild];
    QueryExact(root, pat, l);
    forall i | 0 <= i < |m| ensures l[i] == m[i] {
      assert Selects(pat[i], l[i]);
    }
    var k := l[|m|];
    assert l == m + [k];
    AtSplit(root, m, [k]);
    KidLower(node, k);
  }

  // ------------------------------------------------------------------ path order

  /** A name whose characters all sort above the slash, and that no string pass touches. */
  predicate TidyName(n: string) {
    n != "children" && forall c | c in n :: '/' < c && c != '[' && c != ']'
  }

  predicate TidyLoc(loc: Loc) {
    loc != [] && forall n | n in loc :: TidyName(n)
  }

  ghost predicate TidyTree(root: Members) {
    forall loc | At(root, loc).Some? :: TidyLoc(loc)
  }

  lemma {:induction false} SpellingIsJoin(loc: Loc)
    requires TidyLoc(loc)
    ensures Spelling(loc) == Join(loc, '/')
  {
    assert "*" !in loc by {
      assert '*' in "*";
    }
    forall n | n in loc ensures VssPath.Clean(n) {
      assert TidyName(n);
    }
    VssPath.BodyIsRender(loc);
    VssPath.JsonToGen2Exact(loc);
    VssPath.KeptClean(loc);
  }

  /** A name followed by a slash (or by nothing) stays below a longer or later name. */
  lemma {:induction false} NameThenSlash(a: string, b: string, s: string, t: string)
    requires Less(a, b) && (forall c | c in b :: '/' < c) && (s == "" || s[0] == '/')
    ensures Less(a + s, b + t)
    decreases |a|
  {
    assert (b + t)[0] == b[0] && b[0] in b;
    assert forall c | c in b[1..] :: c in b;
    if a == "" {
      assert a + s == s;
    } else if a[0] == b[0] {
      assert (a + s)[1..] == a[1..] + s && (b + t)[1..] == b[1..] + t;
      NameThenSlash(a[1..], b[1..], s, t);
    }
  }

  lemma {:induction false} SamePrefixLess(p: string, x: string, y: string)
    requires Less(x, y)
    ensures Less(p + x, p + y)
    decreases |p|
  {
    if p == "" {
      assert p + x == x && p + y == y;
    } else {
      assert (p + x)[1..] == p[1..] + x && (p + y)[1..] == p[1..] + y;
      SamePrefixLess(p[1..], x, y);
    }
  }

  /** On tidy names the order of locations is the order of their slash spellings. */
  lemma {:induction false} JoinOrder(x: Loc, y: Loc)
    requires LocLess(x, y) && TidyLoc(x) && TidyLoc(y)
    ensures Less(Join(x, '/'), Join(y, '/'))
    decreases |x|
  {
    var s := if |x| == 1 then "" else "/" + Join(x[1..], '/');
    var t := if |y| == 1 then "" else "/" + Join(y[1..], '/');
    assert Join(x, '/') == x[0] + s by {
      if |x| > 1 {
        assert x[0] + "/" + Join(x[1..], '/') == x[0] + ("/" + Join(x[1..], '/'));
      } else {
        assert x[0] + "" == x[0];
      }
    }
    assert Join(y, '/') == y[0] + t by {
      if |y| > 1 {
        assert y[0] + "/" + Join(y[1..], '/') == y[0] + ("/" + Join(y[1..], '/'));
      } else {
        assert y[0] + "" == y[0];
      }
    }
    assert TidyName(y[0]);
    if Less(x[0], y[0]) {
      NameThenSlash(x[0], y[0], s, t);
    } else {
      JoinOrder(x[1..], y[1..]);
      SamePrefixLess("/", Join(x[1..], '/'), Join(y[1..], '/'));
      SamePrefixLess(x[0], s, t);
    }
  }

  /** Strictly ascending in a key; in `Spelling` this is strictly ascending path order. */
  ghost predicate AscendingBy(key: Loc -> string, paths: seq<Loc>) {
    forall i, j | 0 <= i < j < |paths| :: Less(key(paths[i]), key(paths[j]))
  }

  ghost predicate AllBefore(key: Loc -> string, a: seq<Loc>, b: seq<Loc>) {
    forall x, y | x in a && y in b :: Less(key(x), key(y))
  }

  /** Merging a list with a list of later paths is appending it. */
  lemma {:induction false} MergeAppends(key: Loc -> string, a: seq<Loc>, b: seq<Loc>)
    requires AllBefore(key, a, b)
    ensures Merge(key, a, b) == a + b
    decreases |a|
  {
    if a == [] {
      assert a + b == b;
    } else if b == [] {
      assert a + b == a;
    } else {
      assert a[0] in a && b[0] in b;
      NotBack(key(a[0]), key(b[0]));
      MergeAppends(key, a[1..], b);
      assert a + b == [a[0]] + (a[1..] + b);
    }
  }

  lemma {:induction false} NotBack(x: string, y: string)
    requires Less(x, y)
    ensures !Less(y, x)
  {
    if Less(y, x) {
      LessTransitive(x, y, x);
      LessIrreflexive(x);
    }
  }

  lemma {:induction false} AppendAscending(key: Loc -> string, a: seq<Loc>, b: seq<Loc>)
    requires AscendingBy(key, a) && AscendingBy(key, b) && AllBefore(key, a, b)
    ensures AscendingBy(key, a + b)
  {
    forall i, j | 0 <= i < j < |a + b| ensures Less(key((a + b)[i]), key((a + b)[j])) {
      if i < |a| && j >= |a| {
        assert (a + b)[i] in a && (a + b)[j] in b;
      }
    }
  }

  // ------------------------------------------------------------------ the enumeration

  /** `paths` holds what is reached from the first `n` matches, each once. */
  ghost predicate Collected(root: Members, locs: seq<Loc>, n: nat, paths: seq<Loc>)
    requires n <= |locs|
  {
    && (forall loc :: loc in paths <==> exists i | 0 <= i < n :: ReachedFrom(root, locs[i], loc))
    && (forall loc :: multiset(paths)[loc] <= 1)
  }

  /** What is reached from match `n` comes after everything reached from earlier matches. */
  lemma {:induction false} LaterMatch(root: Members, pat: seq<Sel>, n: nat, paths: seq<Loc>, more: seq<Loc>)
    requires pat != [] && n < |Query(root, pat)| && Collected(root, Query(root, pat), n, paths)
    requires forall loc | loc in more :: ReachedFrom(root, Query(root, pat)[n], loc)
    ensures forall x, y | x in paths && y in more :: LocLess(x, y)
  {
    var locs := Query(root, pat);
    QueryAscending(root, pat);
    forall x, y | x in paths && y in more ensures LocLess(x, y) {
      var i :| 0 <= i < n && ReachedFrom(root, locs[i], x);
      QueryExact(root, pat, locs[i]);
      QueryExact(root, pat, locs[n]);
      MatchesApart(locs[i], locs[n], x, y);
    }
  }

  /** Two lists without repetition and without common elements, put together in any order. */
  lemma {:induction false} OnceEach(paths: seq<Loc>, more: seq<Loc>, paths': seq<Loc>)
    requires (forall loc :: multiset(paths)[loc] <= 1) && (forall loc :: multiset(more)[loc] <= 1)
    requires forall loc | loc in paths :: loc !in more
    requires multiset(paths') == multiset(paths) + multiset(more)
    ensures forall loc :: multiset(paths')[loc] <= 1
    ensures forall loc :: loc in paths' <==> loc in paths || loc in more
  {
    forall loc ensures loc in paths' <==> loc in paths || loc in more {
      assert loc in paths' <==> loc in multiset(paths');
    }
    forall loc ensures multiset(paths')[loc] <= 1 {
      assert loc in multiset(paths) <==> loc in paths;
      assert loc in multiset(more) <==> loc in more;
    }
  }

  lemma {:induction false} CollectMore(
      root: Members, pat: seq<Sel>, n: nat, paths: seq<Loc>, more: seq<Loc>, paths': seq<Loc>)
    requires pat != [] && n < |Query(root, pat)| && Collected(root, Query(root, pat), n, paths)
    requires forall loc :: loc in more <==> ReachedFrom(root, Query(root, pat)[n], loc)
    requires forall loc :: multiset(more)[loc] <= 1
    requires multiset(paths') == multiset(paths) + multiset(more)
    ensures Collected(root, Query(root, pat), n + 1, paths')
  {
    LaterMatch(root, pat, n, paths, more);
    forall loc | loc in paths ensures loc !in more {
      LocLessIrreflexive(loc);
    }
    OnceEach(paths, more, paths');
    OneMoreMatch(root, Query(root, pat), n, paths, more, paths');
  }

  lemma {:induction false} OneMoreMatch(
      root: Members, locs: seq<Loc>, n: nat, paths: seq<Loc>, more: seq<Loc>, paths': seq<Loc>)
    requires n < |locs| && Collected(root, locs, n, paths)
    requires forall loc :: loc in more <==> ReachedFrom(root, locs[n], loc)
    requires forall loc :: loc in paths' <==> loc in paths || loc in more
    requires forall loc :: multiset(paths')[loc] <= 1
    ensures Collected(root, locs, n + 1, paths')
  {
    forall loc ensures loc in paths' <==> exists i | 0 <= i < n + 1 :: ReachedFrom(root, locs[i], loc) {
      if loc in more {
        assert ReachedFrom(root, locs[n], loc);
      }
    }
  }

  /** On a tidy tree location order is path order. */
  lemma {:induction false} TidyBefore(root: Members, a: seq<Loc>, b: seq<Loc>)
    requires TidyTree(root) && (forall x | x in a :: At(root, x).Some?) && (forall y | y in b :: At(root, y).Some?)
    requires forall x, y | x in a && y in b :: LocLess(x, y)
    ensures AllBefore(Spelling, a, b)
  {
    forall x, y | x in a && y in b ensures Less(Spelling(x), Spelling(y)) {
      SpellingIsJoin(x);
      SpellingIsJoin(y);
      JoinOrder(x, y);
    }
  }

  /**
    getLeafPaths.  It returns, each once, exactly the non-branch nodes reached from a match of
    the path by descending through branches.  On a tree whose names sort above the slash the
    result is in strictly ascending path order, and then so are both arguments of every merge.
   */
  method GetLeafPaths(root: Members, pat: seq<Sel>) returns (paths: seq<Loc>)
    requires pat != []
    ensures forall loc :: loc in paths <==> Reached(root, pat, loc)
    ensures forall loc :: multiset(paths)[loc] <= 1
    ensures TidyTree(root) ==> AscendingBy(Spelling, paths)
    decreases Bound(root, Query(root, pat))
  {
    paths := [];
    var locs := Query(root, pat);
    for n := 0 to |locs|
      invariant Collected(root, locs, n, paths)
      invariant TidyTree(root) ==> AscendingBy(Spelling, paths)
    {
      var m := locs[n];
      RecursionDescends(root, pat, n);
      var node := At(root, m).value;
      ghost var more, before := [m], paths;
      if IsBranch(node) {
        var sub := GetLeafPaths(root, Names(m) + [Wild]);
        more := sub;
        forall loc ensures loc in sub <==> ReachedFrom(root, m, loc) {
          RecursionReaches(root, m, loc);
        }
        paths := Merge(Spelling, paths, sub);
      } else {
        LeafAlone(root, m);
        paths := paths + [m];
      }
      Step(root, pat, n, before, more, paths);
    }
    forall loc ensures loc in paths <==> Reached(root, pat, loc) {
      ReachedFromSome(root, pat, loc);
      if loc in paths {
        var i :| 0 <= i < |locs| && ReachedFrom(root, locs[i], loc);
        assert locs[i] in locs;
      }
    }
  }

  lemma {:induction false} LeafAlone(root: Members, m: Loc)
    requires At(root, m).Some? && !IsBranch(At(root, m).value)
    ensures forall loc :: loc in [m] <==> ReachedFrom(root, m, loc)
  {
    forall loc ensures loc in [m] <==> ReachedFrom(root, m, loc) {
      if ReachedFrom(root, m, loc) {
        assert |loc| > |m| ==> BranchAt(root, loc[..|m|]);
        assert loc == loc[..|m|];
      }
      if loc == m {
        assert m[..|m|] == m;
      }
    }
  }

  /** One round of the loop, for a merged branch and for an appended leaf. */
  lemma {:induction false} Step(root: Members, pat: seq<Sel>, n: nat, paths: seq<Loc>, more: seq<Loc>, paths': seq<Loc>)
    requires pat != [] && n < |Query(root, pat)| && Collected(root, Query(root, pat), n, paths)
    requires forall loc :: loc in more <==> ReachedFrom(root, Query(root, pat)[n], loc)
    requires forall loc :: multiset(more)[loc] <= 1
    requires paths' == Merge(Spelling, paths, more) || paths' == paths + more
    ensures Collected(root, Query(root, pat), n + 1, paths')
    ensures TidyTree(root) && AscendingBy(Spelling, paths) && AscendingBy(Spelling, more) ==>
              AscendingBy(Spelling, paths')
  {
    CollectMore(root, pat, n, paths, more, paths');
    LaterMatch(root, pat, n, paths, more);
    if TidyTree(root) {
      TidyBefore(root, paths, more);
      MergeAppends(Spelling, paths, more);
      if AscendingBy(Spelling, paths) && AscendingBy(Spelling, more) {
        AppendAscending(Spelling, paths, more);
      }
    }
  }
}
