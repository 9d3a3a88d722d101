/**
  Erasing the runtime keys of a signal tree, and how erasing commutes with everything the
  database does to its two trees: overlay merge, metadata patch, default values and set.
 */
module TwinTree {
  import opened Basics
  import opened Json
  import opened Tree
  import opened Overlay

  /** The keys a set writes into a node of the data tree. */
  const RUNTIME: set<string> := {
    "value", "ts_s-value", "ts_ns-value", "targetValue", "ts_s-targetValue", "ts_ns-targetValue"}

  /** A node without its runtime keys, at every level. */
  function EraseNode(j: Json): Json
    decreases j
  {
    if !j.Obj? then j
    else Obj(map k | k in j.fields && k !in RUNTIME ::
               if k == "children" then EraseKids(j.fields[k]) else j.fields[k])
  }

  /** The same for a collection of nodes. */
  function EraseKids(c: Json): Json
    decreases c
  {
    match c
    case Obj(fields) => Obj(map k | k in fields :: EraseNode(fields[k]))
    case Arr(items) => Arr(seq(|items|, i requires 0 <= i < |items| => EraseNode(items[i])))
    case _ => c
  }

  function EraseMembers(m: Members): Members {
    map k | k in m :: EraseNode(m[k])
  }

  // ------------------------------------------------------------------ overlay

  lemma {:induction false} EraseNodeMerge(a: Json, b: Json)
    ensures EraseNode(Merge(a, b)) == Merge(EraseNode(a), EraseNode(b))
    decreases b, 1
  {
    if a.Obj? && b.Obj? {
      var m := Merge(a, b);
      if "children" in a.fields && "children" in b.fields {
        EraseKidsMerge(a.fields["children"], b.fields["children"]);
      }
      NodeFields(a, b, m, EraseNode(m).fields, Merge(EraseNode(a), EraseNode(b)).fields);
    }
  }

  /** Member by member: the two sides agree as soon as they agree on the children. */
  lemma {:induction false} NodeFields(a: Json, b: Json, m: Json, l: Members, r: Members)
    requires a.Obj? && b.Obj? && m == Merge(a, b)
    requires l == EraseNode(m).fields && r == Merge(EraseNode(a), EraseNode(b)).fields
    requires "children" in a.fields && "children" in b.fields ==>
               EraseKids(Merge(a.fields["children"], b.fields["children"]))
               == Merge(EraseKids(a.fields["children"]), EraseKids(b.fields["children"]))
    ensures l == r
  {
    assert l.Keys == r.Keys;
    forall k | k in l ensures l[k] == r[k] {
    }
  }

  /** Erasing commutes with overlaying. */
  lemma {:induction false} EraseKidsMerge(a: Json, b: Json)
    ensures EraseKids(Merge(a, b)) == Merge(EraseKids(a), EraseKids(b))
    decreases b, 0
  {
    if a.Obj? && b.Obj? {
      forall k | k in a.fields && k in b.fields
        ensures EraseNode(Merge(a.fields[k], b.fields[k])) == Merge(EraseNode(a.fields[k]), EraseNode(b.fields[k]))
      {
        EraseNodeMerge(a.fields[k], b.fields[k]);
      }
      assert EraseKids(Merge(a, b)).fields == Merge(EraseKids(a), EraseKids(b)).fields;
    } else if a.Arr? && b.Arr? {
      forall i | 0 <= i < |a.items| && i < |b.items|
        ensures EraseNode(Merge(a.items[i], b.items[i])) == Merge(EraseNode(a.items[i]), EraseNode(b.items[i]))
      {
        EraseNodeMerge(a.items[i], b.items[i]);
      }
      assert EraseKids(Merge(a, b)).items == Merge(EraseKids(a), EraseKids(b)).items;
    }
  }

  // ------------------------------------------------------------------ queries

  lemma {:induction false} KidsErased(node: Json)
    ensures Kids(EraseNode(node)) == EraseMembers(Kids(node))
  {
    if node.Obj? && "children" in node.fields {
      assert EraseNode(node).fields["children"] == EraseKids(node.fields["children"]);
    }
  }

  /** A query sees the same locations in a tree and in its erasure. */
  lemma {:induction false} QueryErased(root: Members, pat: seq<Sel>)
    ensures Query(EraseMembers(root), pat) == Query(root, pat)
    decreases |pat|, 1, 0
  {
    if pat != [] {
      assert EraseMembers(root).Keys == root.Keys;
      assert Picks(EraseMembers(root), pat[0]) == Picks(root, pat[0]);
      QueryAllErased(root, pat, Picks(root, pat[0]));
    }
  }

  lemma {:induction false} QueryAllErased(root: Members, pat: seq<Sel>, names: seq<string>)
    requires pat != [] && forall n | n in names :: n in root
    ensures QueryAll(EraseMembers(root), pat, names) == QueryAll(root, pat, names)
    decreases |pat|, 0, |names|
  {
    if names != [] {
      if |pat| > 1 {
        KidsErased(root[names[0]]);
        QueryErased(Kids(root[names[0]]), pat[1..]);
      }
      QueryAllErased(root, pat, names[1..]);
    }
  }

  lemma {:induction false} AtErased(root: Members, loc: Loc)
    ensures At(EraseMembers(root), loc) == match At(root, loc) case Some(n) => Some(EraseNode(n)) case None => None
    decreases |loc|
  {
    if loc != [] && loc[0] in root && |loc| > 1 {
      KidsErased(root[loc[0]]);
      AtErased(Kids(root[loc[0]]), loc[1..]);
    }
  }

  // ------------------------------------------------------------------ replacing a node

  function SetKids(node: Json, kids: Members): Json
    requires node.Obj?
  {
    Obj(node.fields["children" := Obj(kids)])
  }

  /** jsonpath::json_replace at one location. */
  function Put(root: Members, loc: Loc, node: Json): Members
    requires At(root, loc).Some?
    decreases |loc|
  {
    if |loc| == 1 then root[loc[0] := node]
    else root[loc[0] := SetKids(root[loc[0]], Put(Kids(root[loc[0]]), loc[1..], node))]
  }

  lemma {:induction false} PutErased(root: Members, loc: Loc, node: Json)
    requires At(root, loc).Some?
    ensures At(EraseMembers(root), loc).Some?
    ensures EraseMembers(Put(root, loc, node)) == Put(EraseMembers(root), loc, EraseNode(node))
    decreases |loc|
  {
    AtErased(root, loc);
    var k := loc[0];
    if |loc| == 1 {
      MemberErased(root, k, node);
    } else {
      var kids := Kids(root[k]);
      KidsErased(root[k]);
      PutErased(kids, loc[1..], node);
      SetKidsErased(root[k], Put(kids, loc[1..], node));
      MemberErased(root, k, SetKids(root[k], Put(kids, loc[1..], node)));
    }
  }

  lemma {:induction false} MemberErased(root: Members, k: string, node: Json)
    ensures EraseMembers(root[k := node]) == EraseMembers(root)[k := EraseNode(node)]
  {
  }

  lemma {:induction false} SetKidsErased(node: Json, kids: Members)
    requires node.Obj?
    ensures EraseNode(SetKids(node, kids)) == SetKids(EraseNode(node), EraseMembers(kids))
  {
    assert EraseKids(Obj(kids)) == Obj(EraseMembers(kids));
    assert EraseNode(SetKids(node, kids)).fields == SetKids(EraseNode(node), EraseMembers(kids)).fields;
  }

  /** After a replacement the new node is there. */
  lemma {:induction false} PutAt(root: Members, loc: Loc, node: Json)
    requires At(root, loc).Some?
    ensures At(Put(root, loc, node), loc) == Some(node)
    decreases |loc|
  {
    if |loc| > 1 {
      PutAt(Kids(root[loc[0]]), loc[1..], node);
    }
  }

  /** Locations that do not run through the replaced one keep their children and attributes. */
  lemma {:induction false} PutElsewhere(root: Members, loc: Loc, node: Json, other: Loc)
    requires At(root, loc).Some? && !(loc <= other) && !(other <= loc)
    ensures At(Put(root, loc, node), other) == At(root, other)
    decreases |loc|
  {
    if other != [] && other[0] == loc[0] {
      assert |loc| == 1 ==> loc <= other;
      assert |other| == 1 ==> other <= loc;
      PutElsewhere(Kids(root[loc[0]]), loc[1..], node, other[1..]);
    }
  }

  function Attr(node: Option<Json>, k: string): Option<Json> {
    match node
    case Some(Obj(fields)) => if k in fields then Some(fields[k]) else None
    case _ => None
  }

  /** Ancestors of the replaced node keep all their own attributes. */
  lemma {:induction false} PutAbove(root: Members, loc: Loc, node: Json, above: Loc, k: string)
    requires At(root, loc).Some? && above < loc && above != [] && k != "children"
    ensures Attr(At(Put(root, loc, node), above), k) == Attr(At(root, above), k)
    decreases |loc|
  {
    assert above[0] == loc[0];
    if |above| > 1 {
      assert above[1..] < loc[1..];
      PutAbove(Kids(root[loc[0]]), loc[1..], node, above[1..], k);
    }
  }

  /** Below the replaced node nothing changes as long as its children do not. */
  lemma {:induction false} PutBelow(root: Members, loc: Loc, node: Json, below: Loc)
    requires At(root, loc).Some? && loc < below && Kids(node) == Kids(At(root, loc).value)
    ensures At(Put(root, loc, node), below) == At(root, below)
  {
    var rest := below[|loc|..];
    assert below == loc + rest;
    PutAt(root, loc, node);
    AtSplit(root, loc, rest);
    AtSplit(Put(root, loc, node), loc, rest);
  }
}
