/**
  Signal trees as JSON: a root object maps names to nodes; a node is an object whose
  "children" member, if it is an object, maps names to nodes again.  Queries are the JSONPaths
  that the server builds: names and wildcards, one per level.
 */
module Tree {
  import opened Basics
  import opened Json
  import opened Strings
  import opened Ordering

  type Members = map<string, Json>

  /** A location: the names from the root down to a node. */
  type Loc = seq<string>

  datatype Sel = Name(name: string) | Wild

  function Fields(j: Json): Members {
    if j.Obj? then j.fields else map[]
  }

  function Kids(node: Json): Members {
    if node.Obj? && "children" in node.fields then Fields(node.fields["children"]) else map[]
  }

  /** The node at a location. */
  function At(root: Members, loc: Loc): Option<Json>
    decreases |loc|
  {
    if loc == [] || loc[0] !in root then None
    else if |loc| == 1 then Some(root[loc[0]])
    else At(Kids(root[loc[0]]), loc[1..])
  }

  predicate Selects(s: Sel, name: string) {
    s.Wild? || s.name == name
  }

  /** A location fits a pattern of the same length, level by level. */
  predicate Fits(loc: Loc, pat: seq<Sel>) {
    |loc| == |pat| && forall i | 0 <= i < |loc| :: Selects(pat[i], loc[i])
  }

  function Names(loc: Loc): (pat: seq<Sel>)
    ensures |pat| == |loc| && forall i | 0 <= i < |loc| :: pat[i] == Name(loc[i])
  {
    seq(|loc|, i requires 0 <= i < |loc| => Name(loc[i]))
  }

  /** The pattern of a slash path. */
  function PatternOf(path: string): (pat: seq<Sel>)
    ensures pat != []
  {
    var els := Split(path, '/');
    seq(|els|, i requires 0 <= i < |els| => if els[i] == "*" then Wild else Name(els[i]))
  }

  /** The names one selector picks among members: a wildcard visits them in key order. */
  function Picks(root: Members, s: Sel): (names: seq<string>)
    ensures forall n :: n in names <==> n in root && Selects(s, n)
    ensures Ascending(names)
  {
    match s
    case Wild => SortedKeys(root.Keys)
    case Name(n) => if n in root then [n] else []
  }

  function Under(name: string, locs: seq<Loc>): (r: seq<Loc>)
    ensures |r| == |locs| && forall i | 0 <= i < |locs| :: r[i] == [name] + locs[i]
  {
    seq(|locs|, i requires 0 <= i < |locs| => [name] + locs[i])
  }

  /** jsonpath::json_query with paths as results, in traversal order. */
  function Query(root: Members, pat: seq<Sel>): seq<Loc>
    decreases |pat|, 1, 0
  {
    if pat == [] then [] else QueryAll(root, pat, Picks(root, pat[0]))
  }

  function QueryAll(root: Members, pat: seq<Sel>, names: seq<string>): seq<Loc>
    requires pat != [] && forall n | n in names :: n in root
    decreases |pat|, 0, |names|
  {
    if names == [] then []
    else
      (if |pat| == 1 then [[names[0]]] else Under(names[0], Query(Kids(root[names[0]]), pat[1..])))
      + QueryAll(root, pat, names[1..])
  }

  // ------------------------------------------------------------------ what a query returns

  ghost predicate Found(root: Members, pat: seq<Sel>, loc: Loc) {
    pat != [] && Fits(loc, pat) && At(root, loc).Some?
  }

  lemma {:induction false} FoundStep(root: Members, pat: seq<Sel>, loc: Loc)
    requires pat != [] && loc != []
    ensures Found(root, pat, loc) <==>
              && loc[0] in root && Selects(pat[0], loc[0])
              && if |pat| == 1 then loc == [loc[0]] else Found(Kids(root[loc[0]]), pat[1..], loc[1..])
  {
    if Fits(loc, pat) {
      forall i | 0 <= i < |loc| - 1 ensures Selects(pat[1..][i], loc[1..][i]) {
        assert Selects(pat[i + 1], loc[i + 1]);
      }
    }
    if |pat| > 1 && Selects(pat[0], loc[0]) && Fits(loc[1..], pat[1..]) {
      forall i | 0 <= i < |loc| ensures Selects(pat[i], loc[i]) {
        if i > 0 {
          assert Selects(pat[1..][i - 1], loc[1..][i - 1]);
        }
      }
    }
  }

  /** A query finds exactly the existing locations that fit its pattern. */
  lemma {:induction false} QueryExact(root: Members, pat: seq<Sel>, loc: Loc)
    ensures loc in Query(root, pat) <==> Found(root, pat, loc)
    decreases |pat|, 1, 0
  {
    if pat != [] {
      QueryAllExact(root, pat, Picks(root, pat[0]), loc);
      if loc != [] {
        FoundStep(root, pat, loc);
      }
    }
  }

  lemma {:induction false} QueryAllExact(root: Members, pat: seq<Sel>, names: seq<string>, loc: Loc)
    requires pat != [] && forall n | n in names :: n in root
    ensures loc in QueryAll(root, pat, names) <==>
              && loc != [] && loc[0] in names
              && if |pat| == 1 then loc == [loc[0]] else Found(Kids(root[loc[0]]), pat[1..], loc[1..])
    decreases |pat|, 0, |names|
  {
    if names != [] {
      QueryAllExact(root, pat, names[1..], loc);
      if |pat| > 1 {
        var sub := Query(Kids(root[names[0]]), pat[1..]);
        if loc != [] && loc[0] == names[0] {
          QueryExact(Kids(root[names[0]]), pat[1..], loc[1..]);
          UnderMember(names[0], sub, loc);
        } else {
          assert loc !in Under(names[0], sub);
        }
      }
    }
  }

  lemma {:induction false} UnderMember(name: string, locs: seq<Loc>, loc: Loc)
    requires loc != [] && loc[0] == name
    ensures loc in Under(name, locs) <==> loc[1..] in locs
  {
    assert loc == [name] + loc[1..];
    if loc in Under(name, locs) {
      var i :| 0 <= i < |locs| && Under(name, locs)[i] == loc;
      assert locs[i] == ([name] + locs[i])[1..];
    }
    if loc[1..] in locs {
      var i :| 0 <= i < |locs| && locs[i] == loc[1..];
      assert Under(name, locs)[i] == loc;
    }
  }

  // ------------------------------------------------------------------ order of results

  /** Locations compare element by element. */
  ghost predicate LocLess(a: Loc, b: Loc) {
    a != [] && b != [] && (Less(a[0], b[0]) || (a[0] == b[0] && LocLess(a[1..], b[1..])))
  }

  ghost predicate AscendingLocs(locs: seq<Loc>) {
    forall i, j | 0 <= i < j < |locs| :: LocLess(locs[i], locs[j])
  }

  lemma {:induction false} LocLessIrreflexive(a: Loc)
    ensures !LocLess(a, a)
    decreases |a|
  {
    if a != [] {
      LessIrreflexive(a[0]);
      LocLessIrreflexive(a[1..]);
    }
  }

  lemma {:induction false} UnderAscending(name: string, locs: seq<Loc>)
    requires AscendingLocs(locs)
    ensures AscendingLocs(Under(name, locs))
  {
    var r := Under(name, locs);
    forall i, j | 0 <= i < j < |r| ensures LocLess(r[i], r[j]) {
      assert r[i][1..] == locs[i] && r[j][1..] == locs[j];
    }
  }

  /** Results come in ascending order, so without duplicates. */
  lemma {:induction false} QueryAscending(root: Members, pat: seq<Sel>)
    ensures AscendingLocs(Query(root, pat))
    decreases |pat|, 1, 0
  {
    if pat != [] {
      QueryAllAscending(root, pat, Picks(root, pat[0]));
    }
  }

  lemma {:induction false} QueryAllAscending(root: Members, pat: seq<Sel>, names: seq<string>)
    requires pat != [] && (forall n | n in names :: n in root) && Ascending(names)
    ensures AscendingLocs(QueryAll(root, pat, names))
    decreases |pat|, 0, |names|
  {
    if names != [] {
      var n, rest := names[0], names[1..];
      var first := if |pat| == 1 then [[n]] else Under(n, Query(Kids(root[n]), pat[1..]));
      QueryAllAscending(root, pat, rest);
      if |pat| > 1 {
        QueryAscending(Kids(root[n]), pat[1..]);
        UnderAscending(n, Query(Kids(root[n]), pat[1..]));
      }
      var others := QueryAll(root, pat, rest);
      forall a, b | a in first && b in others ensures LocLess(a, b) {
        QueryAllExact(root, pat, rest, b);
        assert a[0] == n;
        var k :| 0 <= k < |rest| && rest[k] == b[0];
        assert names[k + 1] == b[0];
      }
      Concatenated(first, others);
    }
  }

  lemma {:induction false} Concatenated(a: seq<Loc>, b: seq<Loc>)
    requires AscendingLocs(a) && AscendingLocs(b) && forall x, y | x in a && y in b :: LocLess(x, y)
    ensures AscendingLocs(a + b)
  {
    forall i, j | 0 <= i < j < |a + b| ensures LocLess((a + b)[i], (a + b)[j]) {
      if i < |a| && j >= |a| {
        assert (a + b)[i] in a && (a + b)[j] in b;
      }
    }
  }

  // ------------------------------------------------------------------ heights

  /** The nesting of a value: what the recursion over a tree decreases. */
  function Height(j: Json): nat
    decreases j, 1
  {
    match j
    case Obj(fields) => 1 + MaxHeight(j, SortedKeys(fields.Keys))
    case _ => 0
  }

  function MaxHeight(j: Json, keys: seq<string>): nat
    requires j.Obj? && forall k | k in keys :: k in j.fields
    decreases j, 0, |keys|
  {
    if keys == [] then 0
    else
      var h, r := Height(j.fields[keys[0]]), MaxHeight(j, keys[1..]);
      if h < r then r else h
  }

  lemma {:induction false} MaxHeightBounds(j: Json, keys: seq<string>, k: string)
    requires j.Obj? && (forall k | k in keys :: k in j.fields) && k in keys
    ensures Height(j.fields[k]) <= MaxHeight(j, keys)
    decreases |keys|
  {
    if k != keys[0] {
      MaxHeightBounds(j, keys[1..], k);
    }
  }

  lemma {:induction false} FieldLower(j: Json, k: string)
    requires j.Obj? && k in j.fields
    ensures Height(j.fields[k]) < Height(j)
  {
    MaxHeightBounds(j, SortedKeys(j.fields.Keys), k);
  }

  lemma {:induction false} KidLower(node: Json, k: string)
    requires k in Kids(node)
    ensures Height(Kids(node)[k]) < Height(node)
  {
    FieldLower(node, "children");
    FieldLower(node.fields["children"], k);
  }

  // ------------------------------------------------------------------ below a location

  lemma {:induction false} AtSplit(root: Members, a: Loc, b: Loc)
    requires a != [] && b != []
    ensures At(root, a + b) == match At(root, a) case Some(n) => At(Kids(n), b) case None => None
    decreases |a|
  {
    if a[0] in root {
      if |a| == 1 {
        assert (a + b)[1..] == b;
      } else {
        assert (a + b)[1..] == a[1..] + b;
        AtSplit(Kids(root[a[0]]), a[1..], b);
      }
    }
  }

  /** Every ancestor of an existing location exists. */
  lemma {:induction false} PrefixExists(root: Members, loc: Loc, n: nat)
    requires At(root, loc).Some? && 0 < n <= |loc|
    ensures At(root, loc[..n]).Some?
  {
    if n < |loc| {
      assert loc == loc[..n] + loc[n..];
      AtSplit(root, loc[..n], loc[n..]);
    } else {
      assert loc[..n] == loc;
    }
  }

  // ------------------------------------------------------------------ what a path selects

  /** The location fits the path: one name for each element, and a star faces any name. */
  ghost predicate FitsPath(loc: Loc, path: string) {
    exists els: seq<string> {:trigger Join(els, '/')} ::
      && els != [] && Join(els, '/') == path && (forall e | e in els :: '/' !in e)
      && |els| == |loc| && forall i | 0 <= i < |els| :: els[i] == "*" || els[i] == loc[i]
  }

  lemma {:induction false} PatternMeans(path: string, loc: Loc)
    ensures Fits(loc, PatternOf(path)) <==> FitsPath(loc, path)
  {
    var els, pat := Split(path, '/'), PatternOf(path);
    JoinSplit(path, '/');
    forall e | e in els ensures '/' !in e {
      SplitParts(path, '/', e);
    }
    if Fits(loc, pat) {
      assert forall i | 0 <= i < |els| :: Selects(pat[i], loc[i]);
      assert Join(els, '/') == path;
    }
    if FitsPath(loc, path) {
      var es :| es != [] && Join(es, '/') == path && (forall e | e in es :: '/' !in e)
                && |es| == |loc| && forall i | 0 <= i < |es| :: es[i] == "*" || es[i] == loc[i];
      SplitJoin(es, '/');
      assert forall i | 0 <= i < |loc| :: Selects(pat[i], loc[i]);
    }
  }

  /** The path selects the location: it fits, and there is a node. */
  ghost predicate PathSelects(root: Members, path: string, loc: Loc) {
    FitsPath(loc, path) && At(root, loc).Some?
  }

  /** The path selects this location and no other. */
  ghost predicate OnlyOne(root: Members, path: string, loc: Loc) {
    PathSelects(root, path, loc) && forall other | PathSelects(root, path, other) :: other == loc
  }

  /** The path selects this location, and others only after it. */
  ghost predicate FirstOf(root: Members, path: string, loc: Loc) {
    PathSelects(root, path, loc) && forall other | PathSelects(root, path, other) && other != loc :: LocLess(loc, other)
  }

  lemma {:induction false} PathQuery(root: Members, path: string, loc: Loc)
    ensures loc in Query(root, PatternOf(path)) <==> PathSelects(root, path, loc)
  {
    PatternMeans(path, loc);
    QueryExact(root, PatternOf(path), loc);
  }

  lemma {:induction false} NothingFound(root: Members, path: string)
    ensures Query(root, PatternOf(path)) == [] <==> forall loc :: !PathSelects(root, path, loc)
  {
    var found := Query(root, PatternOf(path));
    if found != [] {
      PathQuery(root, path, found[0]);
    }
    forall loc ensures found == [] ==> !PathSelects(root, path, loc) {
      PathQuery(root, path, loc);
    }
  }

  lemma {:induction false} OnlyOneIff(root: Members, path: string, loc: Loc)
    ensures Query(root, PatternOf(path)) == [loc] <==> OnlyOne(root, path, loc)
  {
    var found := Query(root, PatternOf(path));
    QueryAscending(root, PatternOf(path));
    forall other ensures other in found <==> PathSelects(root, path, other) {
      PathQuery(root, path, other);
    }
    if OnlyOne(root, path, loc) {
      assert loc in found && found[0] in found;
      if |found| > 1 {
        assert found[1] in found;
        LocLessIrreflexive(loc);
      }
    }
  }

  /** A query finds one location exactly if the path selects only one. */
  lemma {:induction false} OneFound(root: Members, path: string)
    ensures |Query(root, PatternOf(path))| == 1 <==> exists loc :: OnlyOne(root, path, loc)
    ensures forall loc | OnlyOne(root, path, loc) :: Query(root, PatternOf(path)) == [loc]
  {
    var found := Query(root, PatternOf(path));
    if |found| == 1 {
      OnlyOneIff(root, path, found[0]);
    }
    forall loc | OnlyOne(root, path, loc) ensures found == [loc] {
      OnlyOneIff(root, path, loc);
    }
  }

  lemma {:induction false} FirstFound(root: Members, path: string, loc: Loc)
    requires FirstOf(root, path, loc)
    ensures Query(root, PatternOf(path)) != [] && Query(root, PatternOf(path))[0] == loc
  {
    var found := Query(root, PatternOf(path));
    QueryAscending(root, PatternOf(path));
    PathQuery(root, path, loc);
    PathQuery(root, path, found[0]);
    var i :| 0 <= i < |found| && found[i] == loc;
    if i > 0 {
      LocLessBack(loc, found[0]);
    }
  }

  lemma {:induction false} LocLessBack(a: Loc, b: Loc)
    requires LocLess(a, b)
    ensures !LocLess(b, a)
    decreases |a|
  {
    if Less(a[0], b[0]) {
      LessIrreflexive(a[0]);
      if Less(b[0], a[0]) {
        LessTransitive(a[0], b[0], a[0]);
      }
    } else {
      LessIrreflexive(a[0]);
      LocLessBack(a[1..], b[1..]);
    }
  }
}
