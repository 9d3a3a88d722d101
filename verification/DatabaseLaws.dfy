/**
  What the database operations do, said of locations, attributes and the words of the signal
  catalogue: when a metadata patch, a set or a set command succeeds and what it changes, what get
  returns, which nodes get default values, and what it means that the two trees are twins.
 */
module DatabaseLaws {
  import opened Basics
  import opened Json
  import opened Tree
  import opened TwinTree
  import opened Sanitizer
  import opened Database

  // ------------------------------------------------------------------ metadata patch

  /** How a patch of the node at `loc` changes attribute `k` of the node at `other`. */
  ghost predicate NodePatched(
      root: Members, root': Members, loc: Loc, metadata: map<string, Json>, other: Loc, k: string)
  {
    var was, now := At(root, other), At(root', other);
    if other == loc then
      now.Some? && Attr(now, k) == if k in metadata then Some(metadata[k]) else Attr(was, k)
    else if loc < other && "children" in metadata then
      // the patch brought its own children
      var brought := At(Fields(metadata["children"]), other[|loc|..]);
      now == brought
    else if other < loc then
      (now.Some? <==> was.Some?) && (k != "children" ==> Attr(now, k) == Attr(was, k))
    else
      now == was
  }

  lemma {:induction false} PutPatched(root: Members, loc: Loc, metadata: Json, other: Loc, k: string)
    requires At(root, loc).Some? && At(root, loc).value.Obj? && metadata.Obj?
    ensures NodePatched(root, Put(root, loc, Patched(At(root, loc).value, metadata)), loc, metadata.fields, other, k)
  {
    var node := Patched(At(root, loc).value, metadata);
    var root' := Put(root, loc, node);
    PutAt(root, loc, node);
    if loc < other {
      var rest := other[|loc|..];
      assert other == loc + rest && rest != [];
      if "children" in metadata.fields {
        AtSplit(root', loc, rest);
        assert Kids(node) == Fields(metadata.fields["children"]);
      } else {
        PutBelow(root, loc, node, other);
      }
    } else if other < loc {
      if other != [] && k != "children" {
        PutAbove(root, loc, node, other, k);
      }
      PutKeepsAbove(root, loc, node, other);
    } else if other != loc {
      PutElsewhere(root, loc, node, other);
    }
  }

  /** The ancestors of a replaced node exist before and after. */
  lemma {:induction false} PutKeepsAbove(root: Members, loc: Loc, node: Json, above: Loc)
    requires At(root, loc).Some? && above < loc
    ensures At(Put(root, loc, node), above).Some? <==> At(root, above).Some?
  {
    if above != [] {
      PutAt(root, loc, node);
      PrefixExists(root, loc, |above|);
      PrefixExists(Put(root, loc, node), loc, |above|);
      assert loc[..|above|] == above;
    }
  }

  /** A successful patch changes both trees as the metadata says, at the location it selects there. */
  lemma {:induction false} PatchFrame(
      db: Db, authorized: bool, path: string, metadata: Json, loc: Loc, other: Loc, k: string)
    requires DoPatch(db, authorized, path, metadata).Ok?
    ensures
      var db' := DoPatch(db, authorized, path, metadata).value;
      && (PathSelects(Fields(db.data), path, loc) ==>
            NodePatched(Fields(db.data), Fields(db'.data), loc, metadata.fields, other, k))
      && (PathSelects(Fields(db.meta), path, loc) ==>
            NodePatched(Fields(db.meta), Fields(db'.meta), loc, metadata.fields, other, k))
  {
    PathQuery(Fields(db.data), path, loc);
    PathQuery(Fields(db.meta), path, loc);
    if PathSelects(Fields(db.data), path, loc) {
      PutPatched(Fields(db.data), loc, metadata, other, k);
    }
    if PathSelects(Fields(db.meta), path, loc) {
      PutPatched(Fields(db.meta), loc, metadata, other, k);
    }
  }

  /** The path selects only this location, and there is an object. */
  ghost predicate OneNode(root: Members, path: string, loc: Loc) {
    OnlyOne(root, path, loc) && At(root, loc).value.Obj?
  }

  /** When a patch succeeds, and what it answers otherwise. */
  lemma {:induction false} PatchSucceedsIff(db: Db, authorized: bool, path: string, metadata: Json)
    ensures
      var r := DoPatch(db, authorized, path, metadata);
      var one := (exists m :: OnlyOne(Fields(db.meta), path, m)) && exists d :: OnlyOne(Fields(db.data), path, d);
      && (r.Ok? <==> authorized && metadata.Obj?
                     && (exists m :: OneNode(Fields(db.meta), path, m))
                     && exists d :: OneNode(Fields(db.data), path, d))
      && (r == Err(NoPermission) <==> !authorized)
      && (r == Err(NotValid) <==> authorized && !one)
      && (r == Err(Malformed') <==> authorized && one && !r.Ok?)
  {
    OneFound(Fields(db.meta), path);
    OneFound(Fields(db.data), path);
    OneObject(Fields(db.meta), path);
    OneObject(Fields(db.data), path);
  }

  lemma {:induction false} OneObject(root: Members, path: string)
    ensures
      var found := Query(root, PatternOf(path));
      (exists loc :: OneNode(root, path, loc)) <==>
        |found| == 1 && At(root, found[0]).Some? && At(root, found[0]).value.Obj?
  {
    var found := Query(root, PatternOf(path));
    OneFound(root, path);
    if |found| == 1 {
      OnlyOneIff(root, path, found[0]);
      assert At(root, found[0]).Some?;
      assert At(root, found[0]).value.Obj? ==> OneNode(root, path, found[0]);
    }
  }

  // ------------------------------------------------------------------ set

  /** The node has a datatype, and its check accepts the value. */
  ghost predicate Accepts(lib: Library, node: Json, value: Json) {
    node.Obj? && "datatype" in node.fields && Sanitize(lib, node.fields, value).Ok?
  }

  /** The node refuses the value with this error. */
  ghost predicate Refuses(lib: Library, node: Json, value: Json, e: DbError) {
    if node.Obj? && "datatype" in node.fields then
      Sanitize(lib, node.fields, value).Err? && e == Rejected(Sanitize(lib, node.fields, value).error)
    else e == NotSettable
  }

  /** setSignal writes exactly if the path selects one node and that accepts the value. */
  lemma {:induction false} SetOutcome(lib: Library, db: Db, path: string, attr: string, value: Json, ts: Stamp)
    ensures
      var r, root := DoSet(lib, db, path, attr, value, ts), Fields(db.data);
      && (r.published != [] <==> exists loc :: OnlyOne(root, path, loc) && Accepts(lib, At(root, loc).value, value))
      && (forall e :: r.error == Some(e) <==>
                        exists loc :: OnlyOne(root, path, loc) && Refuses(lib, At(root, loc).value, value, e))
  {
    var root := Fields(db.data);
    var found := Query(root, PatternOf(path));
    OneFound(root, path);
    if |found| == 1 {
      OnlyOneIff(root, path, found[0]);
    }
  }

  // ------------------------------------------------------------------ the set command

  /** The text of the node's type. */
  ghost predicate TypedAs(lib: Library, node: Json, t: string) {
    node.Obj? && "type" in node.fields && lib.text(node.fields["type"]) == t
  }

  /** The only location of the path is a sensor or an actuator, and the attribute can be set on it. */
  ghost predicate Settable(lib: Library, db: Db, path: string, attr: string, loc: Loc) {
    && OnlyOne(Fields(db.data), path, loc)
    && var node := At(Fields(db.data), loc).value;
    && (TypedAs(lib, node, "sensor") || TypedAs(lib, node, "actuator"))
    && (attr == "value" || (attr == "targetValue" && TypedAs(lib, node, "actuator")))
  }

  lemma {:induction false} GatesMean(lib: Library, db: Db, path: string, attr: string)
    ensures IsWritable(lib, db, path) && IsAttributable(lib, db, path, attr) <==>
              exists loc :: Settable(lib, db, path, attr, loc)
  {
    var root := Fields(db.data);
    var found := Query(root, PatternOf(path));
    OneFound(root, path);
    if |found| == 1 {
      OnlyOneIff(root, path, found[0]);
      TypeTextIs(lib, At(root, found[0]).value);
      assert IsWritable(lib, db, path) && IsAttributable(lib, db, path, attr) <==>
               Settable(lib, db, path, attr, found[0]);
    }
  }

  lemma {:induction false} TypeTextIs(lib: Library, node: Json)
    ensures forall t | t != "" :: TypeText(lib, Some(node)) == t <==> TypedAs(lib, node, t)
  {
  }

  /** The answer of the set command, exactly. */
  lemma {:induction false} CommandAnswers(
      lib: Library, db: Db, mayWrite: bool, path: string, attr: string, value: Json, ts: Stamp)
    ensures
      var answer, root := DoCommand(lib, db, mayWrite, path, attr, value, ts).answer, Fields(db.data);
      && (answer == PathNotFound <==> forall loc :: !PathSelects(root, path, loc))
      && (answer == NoAccess <==>
            && (exists loc :: PathSelects(root, path, loc))
            && !(mayWrite && exists loc :: Settable(lib, db, path, attr, loc)))
      && (answer == Done <==>
            mayWrite && exists loc :: Settable(lib, db, path, attr, loc) && Accepts(lib, At(root, loc).value, value))
      && (forall e :: answer == SetFailed(e) <==>
            mayWrite && exists loc :: Settable(lib, db, path, attr, loc) && Refuses(lib, At(root, loc).value, value, e))
  {
    NothingFound(Fields(db.data), path);
    GatesMean(lib, db, path, attr);
    SetOutcome(lib, db, path, attr, value, ts);
    if loc :| Settable(lib, db, path, attr, loc) {
      SettableDecides(lib, db, path, attr, value, ts, loc);
      assert PathSelects(Fields(db.data), path, loc);
    }
  }

  /** Where one location is settable it is the only one, so the set is decided there. */
  lemma {:induction false} SettableDecides(
      lib: Library, db: Db, path: string, attr: string, value: Json, ts: Stamp, loc: Loc)
    requires Settable(lib, db, path, attr, loc)
    ensures forall other | Settable(lib, db, path, attr, other) :: other == loc
    ensures
      var error, node := DoSet(lib, db, path, attr, value, ts).error, At(Fields(db.data), loc).value;
      && (error == None <==> Accepts(lib, node, value))
      && forall e :: error == Some(e) <==> Refuses(lib, node, value, e)
  {
    OnlyOneIff(Fields(db.data), path, loc);
  }

  // ------------------------------------------------------------------ the subscribe gates

  lemma {:induction false} ReadableMeans(db: Db, path: string)
    ensures Exists(db, path) <==> exists loc :: PathSelects(Fields(db.data), path, loc)
    ensures IsReadable(db, path) <==>
              exists loc, t :: OnlyOne(Fields(db.data), path, loc) && t in ["sensor", "actuator", "attribute"]
                               && Attr(At(Fields(db.data), loc), "type") == Some(Str(t))
  {
    var root := Fields(db.data);
    var found := Query(root, PatternOf(path));
    NothingFound(root, path);
    OneFound(root, path);
    if |found| == 1 {
      OnlyOneIff(root, path, found[0]);
      var a := Attr(At(root, found[0]), "type");
      assert TypeIs(At(root, found[0]).value, "sensor") <==> a == Some(Str("sensor"));
      assert TypeIs(At(root, found[0]).value, "actuator") <==> a == Some(Str("actuator"));
      assert TypeIs(At(root, found[0]).value, "attribute") <==> a == Some(Str("attribute"));
      assert IsReadable(db, path) ==> exists t :: t in ["sensor", "actuator", "attribute"] && a == Some(Str(t));
    }
  }

  // ------------------------------------------------------------------ get

  /** What get returns: the attribute of the first location, stamped, or with zero stamps. */
  lemma {:induction false} GetExact(db: Db, path: string, attr: string, loc: Loc)
    ensures (forall l :: !PathSelects(Fields(db.data), path, l)) ==> DoGet(db, path, attr) == Err(Malformed')
    ensures FirstOf(Fields(db.data), path, loc) ==>
      var node := At(Fields(db.data), loc);
      var v, s, ns := Attr(node, attr), Attr(node, "ts_s-" + attr), Attr(node, "ts_ns-" + attr);
      DoGet(db, path, attr) ==
        if v.None? then Err(NotSet)
        else if s.Some? && ns.Some? then Ok(Datapoint(v.value, s.value, ns.value))
        else Ok(Datapoint(v.value, Int(0), Int(0)))
  {
    NothingFound(Fields(db.data), path);
    if FirstOf(Fields(db.data), path, loc) {
      FirstFound(Fields(db.data), path, loc);
    }
  }

  // ------------------------------------------------------------------ default values

  predicate HasDefault(node: Json) {
    node.Obj? && Attr(Some(node), "type") == Some(Str("attribute")) && "default" in node.fields
  }

  predicate DefaultAt(root: Members, loc: Loc) {
    match At(root, loc) case Some(node) => HasDefault(node) case None => false
  }

  /** The node is an attribute with a default, and not below another one. */
  ghost predicate Defaulted(root: Members, loc: Loc) {
    DefaultAt(root, loc) && forall i | 0 < i < |loc| :: !DefaultAt(root, loc[..i])
  }

  lemma {:induction false} NodeWithDefaults(lib: Library, node: Json, k: string)
    requires k != "children"
    ensures Attr(Some(WithDefaults(lib, node)), k) ==
              if HasDefault(node) && k == "value" then Some(Str(lib.text(node.fields["default"])))
              else Attr(Some(node), k)
    ensures HasDefault(node) ==> Kids(WithDefaults(lib, node)) == Kids(node)
    ensures !HasDefault(node) && node.Obj? && "children" in node.fields && node.fields["children"].Obj? ==>
              Kids(WithDefaults(lib, node)) == DefaultKids(lib, node.fields["children"])
    ensures !(node.Obj? && "children" in node.fields && node.fields["children"].Obj?) ==>
              Kids(WithDefaults(lib, node)) == map[] == Kids(node)
  {
  }

  /** The defaults of all members at once. */
  lemma {:induction false} MembersWithDefaults(lib: Library, c: Json, loc: Loc, k: string)
    requires c.Obj? && k != "children"
    ensures
      var was, now := At(c.fields, loc), At(DefaultKids(lib, c), loc);
      && (now.Some? <==> was.Some?)
      && Attr(now, k) ==
           if k == "value" && Defaulted(c.fields, loc) then Some(Str(lib.text(was.value.fields["default"])))
           else Attr(was, k)
    decreases |loc|
  {
    if loc != [] && loc[0] in c.fields {
      var node := c.fields[loc[0]];
      NodeWithDefaults(lib, node, k);
      assert At(c.fields, loc[..1]) == Some(node);
      if |loc| > 1 {
        if HasDefault(node) {
          assert DefaultAt(c.fields, loc[..1]);
        } else if node.Obj? && "children" in node.fields && node.fields["children"].Obj? {
          MembersWithDefaults(lib, node.fields["children"], loc[1..], k);
          DefaultedBelow(c.fields, loc);
        }
      }
    }
  }

  lemma {:induction false} DefaultedBelow(root: Members, loc: Loc)
    requires |loc| > 1 && loc[0] in root && !HasDefault(root[loc[0]])
    ensures Defaulted(root, loc) <==> Defaulted(Kids(root[loc[0]]), loc[1..])
  {
    var kids := Kids(root[loc[0]]);
    forall i | 1 < i <= |loc| ensures DefaultAt(root, loc[..i]) <==> DefaultAt(kids, loc[1..][..i - 1]) {
      assert loc[..i][1..] == loc[1..][..i - 1];
    }
    assert loc[..|loc|] == loc && loc[1..][..|loc| - 1] == loc[1..];
    assert At(root, loc[..1]) == Some(root[loc[0]]);
    if Defaulted(root, loc) {
      forall i | 0 < i < |loc| - 1 ensures !DefaultAt(kids, loc[1..][..i]) {
        assert DefaultAt(root, loc[..i + 1]) <==> DefaultAt(kids, loc[1..][..i + 1 - 1]);
      }
    }
  }

  /** Defaults, exactly: which attribute of which node gets which text, and that nothing else changes. */
  lemma {:induction false} DefaultsExact(lib: Library, tree: Json, loc: Loc, k: string)
    requires k != "children"
    ensures
      var root, root' := Fields(tree), Fields(VehicleDefaults(lib, tree));
      var was, now := At(root, loc), At(root', loc);
      && (now.Some? <==> was.Some?)
      && Attr(now, k) ==
           if k == "value" && loc != [] && loc[0] == "Vehicle" && Defaulted(root, loc)
           then Some(Str(lib.text(was.value.fields["default"])))
           else Attr(was, k)
  {
    if loc != [] && loc[0] == "Vehicle" && tree.Obj? && "Vehicle" in tree.fields {
      MembersWithDefaults(lib, tree, loc, k);
      assert DefaultKids(lib, tree)["Vehicle"] == VehicleDefaults(lib, tree).fields["Vehicle"];
    }
  }

  /**
    From the file to the client: after initialisation, get of a concrete path below Vehicle
    returns the default of an attribute as its value, as text and with zero stamps unless the
    file itself has stamps there.
   */
  lemma {:induction false} DefaultServed(lib: Library, tree: Json, path: string, loc: Loc)
    requires OnlyOne(Fields(tree), path, loc) && loc[0] == "Vehicle" && Defaulted(Fields(tree), loc)
    requires Attr(At(Fields(tree), loc), "ts_s-value").None?
    ensures DoGet(DoInit(lib, tree), path, "value") ==
              Ok(Datapoint(Str(lib.text(At(Fields(tree), loc).value.fields["default"])), Int(0), Int(0)))
  {
    var root' := Fields(VehicleDefaults(lib, tree));
    forall other ensures PathSelects(root', path, other) <==> PathSelects(Fields(tree), path, other) {
      DefaultsExact(lib, tree, other, "value");
    }
    DefaultsExact(lib, tree, loc, "value");
    assert "ts_s-" + "value" == "ts_s-value";
    DefaultsExact(lib, tree, loc, "ts_s-value");
    GetExact(DoInit(lib, tree), path, "value", loc);
  }

  // ------------------------------------------------------------------ twins

  /**
    What it means that the trees are twins: the same locations, and at each of them the same
    attributes but for values, target values and their time stamps.
   */
  lemma {:induction false} TwinsAgree(db: Db, loc: Loc, k: string)
    requires Twin(db)
    requires k !in {"children", "value", "ts_s-value", "ts_ns-value",
                    "targetValue", "ts_s-targetValue", "ts_ns-targetValue"}
    ensures At(Fields(db.data), loc).Some? <==> At(Fields(db.meta), loc).Some?
    ensures Attr(At(Fields(db.data), loc), k) == Attr(At(Fields(db.meta), loc), k)
  {
    ErasedFields(db.data);
    ErasedFields(db.meta);
    AtErased(Fields(db.data), loc);
    AtErased(Fields(db.meta), loc);
    ErasedAttr(At(Fields(db.data), loc), k);
    ErasedAttr(At(Fields(db.meta), loc), k);
  }

  lemma {:induction false} ErasedAttr(node: Option<Json>, k: string)
    requires k !in RUNTIME && k != "children"
    ensures Attr(match node case Some(n) => Some(EraseNode(n)) case None => None, k) == Attr(node, k)
  {
  }

  /** So it is after every run of initialisation, overlays, metadata patches and set commands. */
  lemma {:induction false} TwinRunAgrees(lib: Library, db: Db, ops: seq<DbOp>, loc: Loc, k: string)
    requires Twin(db)
    requires k !in {"children", "value", "ts_s-value", "ts_ns-value",
                    "targetValue", "ts_s-targetValue", "ts_ns-targetValue"}
    ensures
      var db' := ApplyOps(lib, db, ops);
      && (At(Fields(db'.data), loc).Some? <==> At(Fields(db'.meta), loc).Some?)
      && Attr(At(Fields(db'.data), loc), k) == Attr(At(Fields(db'.meta), loc), k)
  {
    TwinRun(lib, db, ops);
    TwinsAgree(ApplyOps(lib, db, ops), loc, k);
  }
}
