/** Metadata extraction: the metadata tree pruned to one path. */
module MetaData {
  import opened Basics
  import opened Json
  import opened Strings
  import opened Tree
  import opened TwinTree
  import opened Sanitizer
  import VssPath

  /** Descriptions and types are handed out as text. */
  function AsText(lib: Library, node: Json, key: string): Json {
    if node.Obj? && key in node.fields then Obj(node.fields[key := Str(lib.text(node.fields[key]))]) else node
  }

  function Shown(lib: Library, node: Json): Json {
    AsText(lib, AsText(lib, node, "description"), "type")
  }

  /** The member a dotted query selects, name by name through raw JSON. */
  function RawAt(j: Json, keys: seq<string>): Option<Json>
    decreases |keys|
  {
    if keys == [] then Some(j)
    else if j.Obj? && keys[0] in j.fields then RawAt(j.fields[keys[0]], keys[1..])
    else None
  }

  /** The pruned tree from level `j` of the path on. */
  function PrunedFrom(lib: Library, root: Members, loc: Loc, j: nat): Members
    requires j < |loc|
    decreases |loc| - j
  {
    var node := At(root, loc[..j + 1]);
    if node.None? then map[]
    else if j == |loc| - 1 then map[loc[j] := Shown(lib, node.value)]
    else map[loc[j] := WithKids(Shown(lib, node.value), PrunedFrom(lib, root, loc, j + 1))]
  }

  function WithKids(node: Json, kids: Members): Json {
    Obj(Fields(node)["children" := Obj(kids)])
  }

  /** `OddNames`: a name with a quote or bracket, empty, or the word children; not modelled further. */
  datatype MetaResult = Nothing | Pruned(tree: Json) | Overrun | OddNames

  predicate PlainLoc(loc: Loc) {
    loc != [] && VssPath.Names(loc) && "children" !in loc
  }

  /** Plain names, letter by letter. */
  lemma {:induction false} PlainMeans(loc: Loc)
    ensures PlainLoc(loc) <==>
              loc != [] && forall n | n in loc ::
                n != "" && n != "children" && forall c | c in n :: c != '\'' && c != '[' && c != ']'
  {
    forall n | n in loc
      ensures VssPath.Clean(n) <==> forall c | c in n :: c != '\'' && c != '[' && c != ']'
    {
    }
  }

  // ------------------------------------------------------------------ what pruning means

  lemma {:induction false} ShownKids(lib: Library, node: Json)
    ensures Kids(Shown(lib, node)) == Kids(node) && (Shown(lib, node).Obj? <==> node.Obj?)
  {
  }

  /** What the pruned tree has at level `i`. */
  function PrunedNode(lib: Library, root: Members, loc: Loc, i: nat): Option<Json>
    requires i < |loc|
  {
    match At(root, loc[..i + 1])
    case None => None
    case Some(node) =>
      if i == |loc| - 1 then Some(Shown(lib, node))
      else Some(WithKids(Shown(lib, node), PrunedFrom(lib, root, loc, i + 1)))
  }

  lemma {:induction false} PrunedTop(lib: Library, root: Members, loc: Loc, j: nat)
    requires At(root, loc).Some? && j < |loc|
    ensures PrunedNode(lib, root, loc, j).Some?
    ensures At(PrunedFrom(lib, root, loc, j), [loc[j]]) == PrunedNode(lib, root, loc, j)
    ensures j < |loc| - 1 ==> Kids(PrunedNode(lib, root, loc, j).value) == PrunedFrom(lib, root, loc, j + 1)
  {
    PrefixExists(root, loc, j + 1);
  }

  /** Below level `j` the pruned tree is a chain of single children. */
  lemma {:induction false} PrunedAt(lib: Library, root: Members, loc: Loc, j: nat, i: nat)
    requires At(root, loc).Some? && j <= i < |loc|
    ensures PrunedNode(lib, root, loc, i).Some?
    ensures At(PrunedFrom(lib, root, loc, j), loc[j..i + 1]) == PrunedNode(lib, root, loc, i)
    decreases i - j
  {
    PrunedTop(lib, root, loc, j);
    if i == j {
      assert loc[j..i + 1] == [loc[j]];
    } else {
      PrunedAt(lib, root, loc, j + 1, i);
      assert loc[j..i + 1] == [loc[j]] + loc[j + 1..i + 1];
      AtSplit(PrunedFrom(lib, root, loc, j), [loc[j]], loc[j + 1..i + 1]);
    }
  }

  /** An inner node of a path is an object, and its child on the path exists. */
  lemma {:induction false} InnerNode(root: Members, loc: Loc, i: nat)
    requires At(root, loc).Some? && i < |loc| - 1
    ensures At(root, loc[..i + 1]).Some? && At(root, loc[..i + 1]).value.Obj?
  {
    PrefixExists(root, loc, i + 1);
    assert loc == loc[..i + 1] + loc[i + 1..];
    AtSplit(root, loc[..i + 1], loc[i + 1..]);
  }

  /** An attribute as metadata shows it: descriptions and types as text, all others as they are. */
  function AsShown(lib: Library, v: Option<Json>, k: string): Option<Json> {
    if v.Some? && (k == "description" || k == "type") then Some(Str(lib.text(v.value))) else v
  }

  lemma {:induction false} ShownAttr(lib: Library, node: Json, k: string)
    ensures Attr(Some(Shown(lib, node)), k) == AsShown(lib, Attr(Some(node), k), k)
    ensures !node.Obj? ==> Shown(lib, node) == node
  {
  }

  /** Every ancestor keeps its own attributes (description and type as text) and exactly one child. */
  lemma {:induction false} PrunedAncestor(lib: Library, root: Members, loc: Loc, i: nat, k: string)
    requires At(root, loc).Some? && i < |loc| - 1 && k != "children"
    ensures
      var n, m := At(PrunedFrom(lib, root, loc, 0), loc[..i + 1]), At(root, loc[..i + 1]);
      && n.Some? && m.Some? && Kids(n.value).Keys == {loc[i + 1]}
      && Attr(n, k) == AsShown(lib, Attr(m, k), k)
  {
    PrunedAt(lib, root, loc, 0, i);
    assert loc[0..i + 1] == loc[..i + 1];
    InnerNode(root, loc, i);
    PrefixExists(root, loc, i + 2);
    OwnAttributes(lib, At(root, loc[..i + 1]).value, PrunedFrom(lib, root, loc, i + 1), k);
    ShownAttr(lib, At(root, loc[..i + 1]).value, k);
  }

  /** Giving a node other children leaves its attributes alone. */
  lemma {:induction false} OwnAttributes(lib: Library, node: Json, kids: Members, k: string)
    requires node.Obj? && k != "children"
    ensures Attr(Some(WithKids(Shown(lib, node), kids)), k) == Attr(Some(Shown(lib, node)), k)
    ensures Kids(WithKids(Shown(lib, node), kids)) == kids
  {
    ShownKids(lib, node);
  }

  /** The pruned tree has one root, and the target keeps its attributes and its whole subtree. */
  lemma {:induction false} PrunedTarget(lib: Library, root: Members, loc: Loc)
    requires At(root, loc).Some?
    ensures PrunedFrom(lib, root, loc, 0).Keys == {loc[0]}
    ensures
      var n, m := At(PrunedFrom(lib, root, loc, 0), loc), At(root, loc);
      && n.Some? && (n.value.Obj? <==> m.value.Obj?) && (!m.value.Obj? ==> n == m)
      && (forall k :: Attr(n, k) == AsShown(lib, Attr(m, k), k))
      && Kids(n.value) == Kids(m.value)
  {
    PrefixExists(root, loc, 1);
    PrunedAt(lib, root, loc, 0, |loc| - 1);
    assert loc[0..|loc|] == loc[..|loc|] == loc;
    ShownKids(lib, At(root, loc).value);
    forall k ensures Attr(Some(Shown(lib, At(root, loc).value)), k) == AsShown(lib, Attr(At(root, loc), k), k) {
      ShownAttr(lib, At(root, loc).value, k);
    }
    ShownAttr(lib, At(root, loc).value, "");
  }

  // ------------------------------------------------------------------ tokens and queries

  lemma {:induction false} InterleaveAt(els: seq<string>, j: nat)
    requires j < |els|
    ensures |VssPath.Interleave(els)| == 2 * |els| - 1
    ensures VssPath.Interleave(els)[2 * j] == els[j]
    ensures j > 0 ==> VssPath.Interleave(els)[2 * j - 1] == "children"
    decreases |els|
  {
    if |els| > 1 {
      InterleaveAt(els[1..], if j > 0 then j - 1 else 0);
    }
  }

  /** The dotted query for the first `j + 1` elements selects the node there. */
  lemma {:induction false} RawIsAt(root: Members, loc: Loc, j: nat)
    requires j < |loc|
    ensures |VssPath.Interleave(loc)| == 2 * |loc| - 1
    ensures RawAt(Obj(root), VssPath.Interleave(loc)[..2 * j + 1]) == At(root, loc[..j + 1])
    decreases j
  {
    InterleaveAt(loc, j);
    var t := VssPath.Interleave(loc);
    if |loc| == 1 {
      assert t[..1] == [loc[0]] && loc[..1] == [loc[0]] && [loc[0]][1..] == [];
    } else {
      var u := VssPath.Interleave(loc[1..]);
      assert t == [loc[0]] + (["children"] + u);
      if j == 0 {
        assert t[..1] == [loc[0]] && loc[..1] == [loc[0]] && [loc[0]][1..] == [];
      } else {
        RawIsAt(if loc[0] in root then Kids(root[loc[0]]) else map[], loc[1..], j - 1);
        var p := t[..2 * j + 1];
        assert p[1..] == ["children"] + u[..2 * j - 1];
        assert p[1..][1..] == u[..2 * j - 1];
        assert loc[..j + 1][1..] == loc[1..][..j];
        if loc[0] in root {
          RawThroughChildren(root[loc[0]], u[..2 * j - 1], p[1..]);
        }
      }
    }
  }

  lemma {:induction false} RawThroughChildren(node: Json, keys: seq<string>, all: seq<string>)
    requires keys != [] && all != [] && all[0] == "children" && all[1..] == keys
    ensures RawAt(node, all) == RawAt(Obj(Kids(node)), keys)
  {
  }

  // ------------------------------------------------------------------ the method

  /** The names of a result path, recovered by the tokeniser. */
  lemma {:induction false} TokensOfLoc(loc: Loc)
    requires PlainLoc(loc)
    ensures VssPath.VssTokens("$" + VssPath.Render(VssPath.Interleave(loc))) == VssPath.Interleave(loc)
  {
    VssPath.InterleaveNames(loc);
    VssPath.TokensOfRender(VssPath.Interleave(loc));
  }

  /** What the first loop has stored for level `j`. */
  ghost predicate Stored(lib: Library, root: Members, loc: Loc, j: nat, node: Json, name: string) {
    j < |loc| && name == loc[j] && At(root, loc[..j + 1]).Some? && node == Shown(lib, At(root, loc[..j + 1]).value)
  }

  /** The dotted query of one level finds the node there, and that is what the loop stores. */
  lemma {:induction false} LevelStored(lib: Library, root: Members, loc: Loc, j: nat)
    requires At(root, loc).Some? && j < |loc|
    ensures |VssPath.Interleave(loc)| == 2 * |loc| - 1
    ensures
      var node := RawAt(Obj(root), VssPath.Interleave(loc)[..2 * j + 1]);
      && node.Some? && node == At(root, loc[..j + 1])
      && Stored(lib, root, loc, j, Shown(lib, node.value), loc[j])
      && (j == |loc| - 1 ==> PrunedFrom(lib, root, loc, j) == map[loc[j] := Shown(lib, node.value)])
  {
    RawIsAt(root, loc, j);
    PrefixExists(root, loc, j + 1);
  }

  /** One level of the way back: the stored node gets the pruned tree below it as its children. */
  lemma {:induction false} LevelPruned(lib: Library, root: Members, loc: Loc, n: nat, node: Json, name: string)
    requires At(root, loc).Some? && n < |loc| - 1 && Stored(lib, root, loc, n, node, name)
    ensures map[name := Obj(Fields(node)["children" := Obj(PrunedFrom(lib, root, loc, n + 1))])] ==
              PrunedFrom(lib, root, loc, n)
  {
    InnerNode(root, loc, n);
    ShownKids(lib, At(root, loc[..n + 1]).value);
  }

  /**
    getMetaData.  For a path that selects something, with plain names, the two fixed arrays of
    sixteen entries are overrun if and only if the selected path is longer than sixteen;
    otherwise the result is the metadata tree pruned to it.
   */
  method GetMetaData(lib: Library, meta: Json, path: string) returns (r: MetaResult)
    ensures
      var found := Query(Fields(meta), PatternOf(path));
      && (r.Nothing? <==> found == [])
      && (r.OddNames? <==> found != [] && !PlainLoc(found[0]))
      && (found != [] && PlainLoc(found[0]) ==>
            && (r.Overrun? <==> |found[0]| > 16)
            && (|found[0]| <= 16 ==> r == Pruned(Obj(PrunedFrom(lib, Fields(meta), found[0], 0)))))
  {
    var root := Fields(meta);
    var found := Query(root, PatternOf(path));
    if found == [] {
      return Nothing;
    }
    var loc := found[0];
    QueryExact(root, PatternOf(path), loc);
    var tokens := VssPath.GetVSSTokens("$" + VssPath.Render(VssPath.Interleave(loc)));
    if !PlainLoc(loc) {
      return OddNames;
    }
    TokensOfLoc(loc);
    r := Extract(lib, root, loc, tokens);
  }

  method Extract(lib: Library, root: Members, loc: Loc, tokens: seq<string>) returns (r: MetaResult)
    requires PlainLoc(loc) && At(root, loc).Some? && tokens == VssPath.Interleave(loc)
    ensures r.Overrun? || r.Pruned?
    ensures r.Overrun? <==> |loc| > 16
    ensures |loc| <= 16 ==> r == Pruned(Obj(PrunedFrom(lib, root, loc, 0)))
  {
    InterleaveAt(loc, 0);
    var parentArray := new Json[16](_ => Null);
    var parentName := new string[16](_ => "");
    var parentCount, resJson, i := 0, Null, 0;
    while i < |tokens|
      invariant 0 <= parentCount <= 16 && i <= |tokens|
      invariant i == 2 * parentCount || (i == 2 * parentCount - 1 && parentCount > 0)
      invariant forall j | 0 <= j < parentCount && j < |loc| - 1 ::
                  Stored(lib, root, loc, j, parentArray[j], parentName[j])
      invariant parentCount == |loc| ==> i == |tokens| && resJson == Obj(PrunedFrom(lib, root, loc, |loc| - 1))
      invariant parentCount < |loc| ==> i <= 2 * parentCount
    {
      if i < |tokens| - 1 && tokens[i] == "children" {
        TokenKinds(loc, i, parentCount);
        i := i + 1;
        continue;
      }
      TokenKinds(loc, i, parentCount);
      var j := parentCount;
      LevelStored(lib, root, loc, j);
      var resArray := RawAt(Obj(root), tokens[..i + 1]);
      resJson := Shown(lib, resArray.value);
      if i == |tokens| - 1 && tokens[i] != "children" {
        resJson := Obj(map[tokens[i] := resJson]);
      }
      if parentCount >= 16 {
        return Overrun;
      }
      parentArray[parentCount] := resJson;
      parentName[parentCount] := tokens[i];
      parentCount := parentCount + 1;
      i := i + 1;
    }
    var result := Rebuild(lib, root, loc, parentArray, parentName, resJson);
    r := Pruned(result);
  }

  /** The second loop of getMetaData: from the target back to the root. */
  method Rebuild(
      lib: Library, root: Members, loc: Loc, parentArray: array<Json>, parentName: array<string>, target: Json)
    returns (result: Json)
    requires PlainLoc(loc) && At(root, loc).Some? && |loc| <= parentArray.Length == parentName.Length
    requires target == Obj(PrunedFrom(lib, root, loc, |loc| - 1))
    requires forall j | 0 <= j < |loc| - 1 :: Stored(lib, root, loc, j, parentArray[j], parentName[j])
    ensures result == Obj(PrunedFrom(lib, root, loc, 0))
  {
    result := target;
    var n := |loc| - 2;
    while n >= 0
      invariant -1 <= n <= |loc| - 2
      invariant result == Obj(PrunedFrom(lib, root, loc, n + 1))
    {
      LevelPruned(lib, root, loc, n, parentArray[n], parentName[n]);
      var element := parentArray[n];
      element := Obj(Fields(element)["children" := result]);
      result := Obj(map[parentName[n] := element]);
      n := n - 1;
    }
  }

  /** Even tokens are names, odd tokens the word children. */
  lemma {:induction false} TokenKinds(loc: Loc, i: nat, count: nat)
    requires PlainLoc(loc) && i < |VssPath.Interleave(loc)|
    requires i == 2 * count || i == 2 * count - 1
    ensures |VssPath.Interleave(loc)| == 2 * |loc| - 1 && count < |loc|
    ensures VssPath.Interleave(loc)[i] == "children" <==> i == 2 * count - 1
    ensures i == 2 * count ==> VssPath.Interleave(loc)[i] == loc[count]
  {
    InterleaveAt(loc, 0);
    InterleaveAt(loc, count);
    assert loc[count] in loc;
  }

  // ------------------------------------------------------------------ the overrun happens

  /** A chain of nodes, each with a single child. */
  function Chain(names: seq<string>): Members
    requires names != []
    decreases |names|
  {
    map[names[0] := Obj(if |names| == 1 then map[] else map["children" := Obj(Chain(names[1..]))])]
  }

  lemma {:induction false} ChainEnd(names: seq<string>)
    requires names != []
    ensures At(Chain(names), names).Some?
    decreases |names|
  {
    if |names| > 1 {
      ChainEnd(names[1..]);
      assert Kids(Chain(names)[names[0]]) == Chain(names[1..]);
    }
  }

  /** The slash path of a list of names selects the end of their chain, and nothing else. */
  lemma {:induction false} ChainFound(names: seq<string>)
    requires PlainLoc(names) && "*" !in names && forall n | n in names :: '/' !in n
    ensures
      var found := Query(Chain(names), PatternOf(Join(names, '/')));
      found != [] && found[0] == names
  {
    var pat := PatternOf(Join(names, '/'));
    SplitJoin(names, '/');
    ChainEnd(names);
    forall i | 0 <= i < |names| ensures Selects(pat[i], names[i]) {
      assert names[i] in names;
    }
    QueryExact(Chain(names), pat, names);
    var loc := Query(Chain(names), pat)[0];
    QueryExact(Chain(names), pat, loc);
    forall i | 0 <= i < |names| ensures loc[i] == names[i] {
      assert Selects(pat[i], loc[i]) && names[i] in names;
    }
  }

  /** For every plain path of more than sixteen names there is a tree on which getMetaData overruns its arrays. */
  method DeepPathOverruns(lib: Library, names: seq<string>) returns (r: MetaResult)
    requires PlainLoc(names) && "*" !in names && forall n | n in names :: '/' !in n
    ensures r.Overrun? <==> |names| > 16
  {
    ChainFound(names);
    r := GetMetaData(lib, Obj(Chain(names)), Join(names, '/'));
  }

  /** For instance seventeen times the name "a". */
  method SeventeenOverrun(lib: Library) returns (r: MetaResult)
    ensures r.Overrun?
  {
    r := DeepPathOverruns(lib, seq(17, i => "a"));
  }
}
