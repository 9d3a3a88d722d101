/**
  The signal database: a data tree and a metadata tree, changed by initialisation, overlays,
  metadata patches and sets, and the set command with its gates.  Every operation is atomic.
 */
module Database {
  import opened Basics
  import opened Json
  import opened Ordering
  import opened Tree
  import opened Overlay
  import opened TwinTree
  import opened Sanitizer

  datatype Db = Db(data: Json, meta: Json)

  datatype DbError = NoPermission | NotValid | Malformed' | Rejected(error: Error) | NotSettable | NotSet

  datatype Stamp = Stamp(s: int, ns: int)

  /** A call of publishForVSSPath: the path as it was spelled in the request. */
  datatype Publication = Publication(path: string, attr: string, value: Json)

  // ------------------------------------------------------------------ default values

  function TypeIs(node: Json, t: string): bool {
    node.Obj? && "type" in node.fields && node.fields["type"] == Str(t)
  }

  /** applyDefaultValues: attributes with a default get it as value; other nodes are descended. */
  function WithDefaults(lib: Library, tree: Json): Json
    decreases tree
  {
    if TypeIs(tree, "attribute") && "default" in tree.fields then
      Obj(tree.fields["value" := Str(lib.text(tree.fields["default"]))])
    else if tree.Obj? && "children" in tree.fields && tree.fields["children"].Obj? then
      Obj(tree.fields["children" := Obj(DefaultKids(lib, tree.fields["children"]))])
    else tree
  }

  function DefaultKids(lib: Library, c: Json): Members
    requires c.Obj?
    decreases c
  {
    map k | k in c.fields :: WithDefaults(lib, c.fields[k])
  }

  /** The recursion and the loop of applyDefaultValues. */
  method ApplyDefaultValues(lib: Library, tree: Json) returns (r: Json)
    ensures r == WithDefaults(lib, tree)
    decreases tree
  {
    if TypeIs(tree, "attribute") && "default" in tree.fields {
      return Obj(tree.fields["value" := Str(lib.text(tree.fields["default"]))]);
    }
    r := tree;
    if tree.Obj? && "children" in tree.fields && tree.fields["children"].Obj? {
      var c := tree.fields["children"];
      var kids, todo := c.fields, c.fields.Keys;
      PartEnds(lib, c);
      while todo != {}
        invariant todo <= c.fields.Keys
        invariant kids == PartDefaults(lib, c, c.fields.Keys - todo)
        decreases todo
      {
        var k := Least(todo);
        var sub := ApplyDefaultValues(lib, c.fields[k]);
        PartStep(lib, c, c.fields.Keys - todo, k);
        assert c.fields.Keys - todo + {k} == c.fields.Keys - (todo - {k});
        kids, todo := kids[k := sub], todo - {k};
      }
      assert c.fields.Keys - todo == c.fields.Keys;
      r := Obj(tree.fields["children" := Obj(kids)]);
    }
  }

  /** The children with defaults applied to those already visited. */
  function PartDefaults(lib: Library, c: Json, done: set<string>): Members
    requires c.Obj?
  {
    map k | k in c.fields :: if k in done then WithDefaults(lib, c.fields[k]) else c.fields[k]
  }

  lemma {:induction false} PartStep(lib: Library, c: Json, done: set<string>, k: string)
    requires c.Obj? && k in c.fields
    ensures PartDefaults(lib, c, done + {k}) == PartDefaults(lib, c, done)[k := WithDefaults(lib, c.fields[k])]
  {
  }

  lemma {:induction false} PartEnds(lib: Library, c: Json)
    requires c.Obj?
    ensures PartDefaults(lib, c, {}) == c.fields
    ensures PartDefaults(lib, c, c.fields.Keys) == DefaultKids(lib, c)
  {
  }

  lemma {:induction false} DefaultsErased(lib: Library, tree: Json)
    ensures EraseNode(WithDefaults(lib, tree)) == EraseNode(tree)
    decreases tree
  {
    if TypeIs(tree, "attribute") && "default" in tree.fields {
      assert EraseNode(WithDefaults(lib, tree)).fields == EraseNode(tree).fields;
    } else if tree.Obj? && "children" in tree.fields && tree.fields["children"].Obj? {
      var c := tree.fields["children"];
      var d := Obj(DefaultKids(lib, c));
      forall k | k in c.fields ensures EraseNode(WithDefaults(lib, c.fields[k])) == EraseNode(c.fields[k]) {
        DefaultsErased(lib, c.fields[k]);
      }
      assert EraseKids(d).fields == EraseKids(c).fields;
      assert EraseNode(WithDefaults(lib, tree)).fields == EraseNode(tree).fields;
    }
  }

  /** Defaults below the member "Vehicle" of a whole tree. */
  function VehicleDefaults(lib: Library, tree: Json): Json {
    if tree.Obj? && "Vehicle" in tree.fields then
      Obj(tree.fields["Vehicle" := WithDefaults(lib, tree.fields["Vehicle"])])
    else tree
  }

  lemma {:induction false} VehicleErased(lib: Library, tree: Json)
    ensures EraseKids(VehicleDefaults(lib, tree)) == EraseKids(tree)
  {
    if tree.Obj? && "Vehicle" in tree.fields {
      DefaultsErased(lib, tree.fields["Vehicle"]);
      assert EraseKids(VehicleDefaults(lib, tree)).fields == EraseKids(tree).fields;
    }
  }

  // ------------------------------------------------------------------ operations

  /** initJsonTree: both trees from the file, defaults in the data tree only. */
  function DoInit(lib: Library, tree: Json): Db {
    Db(VehicleDefaults(lib, tree), tree)
  }

  /** updateJsonTree: the overlay, with its own defaults, goes on both trees. */
  function DoOverlay(lib: Library, db: Db, authorized: bool, overlay: Json): (r: Result<Db, DbError>)
    ensures r.Ok? <==> authorized
  {
    if !authorized then Err(NoPermission)
    else
      var o := VehicleDefaults(lib, overlay);
      Ok(Db(Merge(db.data, o), Merge(db.meta, o)))
  }

  /** merge_or_update on a node: the members of the metadata replace or join its own. */
  function Patched(node: Json, metadata: Json): Json
    requires node.Obj? && metadata.Obj?
  {
    Obj(node.fields + metadata.fields)
  }

  /** updateMetaData: the path must select one node, the same in both trees. */
  function DoPatch(db: Db, authorized: bool, path: string, metadata: Json): Result<Db, DbError> {
    if !authorized then Err(NoPermission)
    else
      var pat := PatternOf(path);
      var m, d := Query(Fields(db.meta), pat), Query(Fields(db.data), pat);
      if |m| != 1 || |d| != 1 then Err(NotValid)
      else
        var mn, dn := At(Fields(db.meta), m[0]), At(Fields(db.data), d[0]);
        if mn.None? || dn.None? || !mn.value.Obj? || !dn.value.Obj? || !metadata.Obj? then Err(Malformed')
        else Ok(Db(Obj(Put(Fields(db.data), d[0], Patched(dn.value, metadata))),
                   Obj(Put(Fields(db.meta), m[0], Patched(mn.value, metadata)))))
  }

  /** A node with an attribute set and stamped. */
  function Stamped(node: Json, attr: string, value: Json, ts: Stamp): Json
    requires node.Obj?
  {
    Obj(node.fields[attr := value]["ts_s-" + attr := Int(ts.s)]["ts_ns-" + attr := Int(ts.ns)])
  }

  datatype SetResult = SetResult(db: Db, error: Option<DbError>, published: seq<Publication>)

  /** setSignal: a path that does not select exactly one node changes nothing, silently. */
  ghost function DoSet(lib: Library, db: Db, path: string, attr: string, value: Json, ts: Stamp): SetResult {
    var found := Query(Fields(db.data), PatternOf(path));
    if |found| != 1 || At(Fields(db.data), found[0]).None? then SetResult(db, None, [])
    else
      var node := At(Fields(db.data), found[0]).value;
      if !node.Obj? || "datatype" !in node.fields then SetResult(db, Some(NotSettable), [])
      else
        match Sanitize(lib, node.fields, value)
        case Err(e) => SetResult(db, Some(Rejected(e)), [])
        case Ok(v) =>
          SetResult(db.(data := Obj(Put(Fields(db.data), found[0], Stamped(node, attr, v, ts)))), None,
                    [Publication(path, attr, v)])
  }

  datatype Datapoint = Datapoint(value: Json, ts_s: Json, ts_ns: Json)

  /** getSignal: the attribute of the first match, with its time stamp or zero. */
  function DoGet(db: Db, path: string, attr: string): Result<Datapoint, DbError> {
    var found := Query(Fields(db.data), PatternOf(path));
    if found == [] then Err(Malformed')
    else
      var node := At(Fields(db.data), found[0]);
      if Attr(node, attr).None? then Err(NotSet)
      else if Attr(node, "ts_s-" + attr).Some? && Attr(node, "ts_ns-" + attr).Some? then
        Ok(Datapoint(Attr(node, attr).value, Attr(node, "ts_s-" + attr).value, Attr(node, "ts_ns-" + attr).value))
      else Ok(Datapoint(Attr(node, attr).value, Int(0), Int(0)))
  }

  // ------------------------------------------------------------------ the set command

  datatype SetAnswer = PathNotFound | NoAccess | SetFailed(error: DbError) | Done

  function Selected(db: Db, path: string): Option<Json> {
    var found := Query(Fields(db.data), PatternOf(path));
    if |found| == 1 then At(Fields(db.data), found[0]) else None
  }

  function TypeText(lib: Library, node: Option<Json>): string {
    match Attr(node, "type") case Some(t) => lib.text(t) case None => ""
  }

  /** pathIsWritable: one match, a sensor or an actuator. */
  predicate IsWritable(lib: Library, db: Db, path: string) {
    TypeText(lib, Selected(db, path)) == "sensor" || TypeText(lib, Selected(db, path)) == "actuator"
  }

  /** pathExists: some match. */
  predicate Exists(db: Db, path: string) {
    Query(Fields(db.data), PatternOf(path)) != []
  }

  /** pathIsReadable: one match, a sensor, an actuator or an attribute. */
  predicate IsReadable(db: Db, path: string) {
    match Selected(db, path)
    case Some(node) => TypeIs(node, "sensor") || TypeIs(node, "actuator") || TypeIs(node, "attribute")
    case None => false
  }

  lemma {:induction false} ReadableExists(db: Db, path: string)
    requires IsReadable(db, path)
    ensures Exists(db, path)
  {
  }

  /** pathIsAttributable: several matches pass; one match needs value, or targetValue on an actuator. */
  predicate IsAttributable(lib: Library, db: Db, path: string, attr: string) {
    var found := Query(Fields(db.data), PatternOf(path));
    && found != []
    && (|found| > 1 || attr == "value"
        || (attr == "targetValue" && TypeText(lib, Selected(db, path)) == "actuator"))
  }

  datatype CommandResult = CommandResult(db: Db, answer: SetAnswer, published: seq<Publication>)

  /** processSet after schema validation: the gates in order, then setSignal. */
  ghost function DoCommand(
      lib: Library, db: Db, mayWrite: bool, path: string, attr: string, value: Json, ts: Stamp): CommandResult {
    if Query(Fields(db.data), PatternOf(path)) == [] then CommandResult(db, PathNotFound, [])
    else if !mayWrite then CommandResult(db, NoAccess, [])
    else if !IsWritable(lib, db, path) then CommandResult(db, NoAccess, [])
    else if !IsAttributable(lib, db, path, attr) then CommandResult(db, NoAccess, [])
    else
      var r := DoSet(lib, db, path, attr, value, ts);
      CommandResult(r.db, if r.error.Some? then SetFailed(r.error.value) else Done, r.published)
  }

  // ------------------------------------------------------------------ the twin invariant

  /** The two trees are equal once the runtime keys are erased at every node. */
  ghost predicate Twin(db: Db) {
    EraseKids(db.data) == EraseKids(db.meta)
  }

  lemma {:induction false} ErasedFields(j: Json)
    ensures Fields(EraseKids(j)) == EraseMembers(Fields(j))
  {
  }

  lemma {:induction false} TwinInit(lib: Library, tree: Json)
    ensures Twin(DoInit(lib, tree))
  {
    VehicleErased(lib, tree);
  }

  lemma {:induction false} TwinOverlay(lib: Library, db: Db, authorized: bool, overlay: Json)
    requires Twin(db) && authorized
    ensures Twin(DoOverlay(lib, db, authorized, overlay).value)
  {
    var o := VehicleDefaults(lib, overlay);
    EraseKidsMerge(db.data, o);
    EraseKidsMerge(db.meta, o);
  }

  /** In twin trees every path selects the same locations. */
  lemma {:induction false} TwinQueries(db: Db, pat: seq<Sel>)
    requires Twin(db)
    ensures Query(Fields(db.data), pat) == Query(Fields(db.meta), pat)
  {
    ErasedFields(db.data);
    ErasedFields(db.meta);
    QueryErased(Fields(db.data), pat);
    QueryErased(Fields(db.meta), pat);
  }

  lemma {:induction false} PatchedErased(a: Json, b: Json, metadata: Json)
    requires a.Obj? && b.Obj? && metadata.Obj? && EraseNode(a) == EraseNode(b)
    ensures EraseNode(Patched(a, metadata)) == EraseNode(Patched(b, metadata))
  {
    var x, y := EraseNode(Patched(a, metadata)).fields, EraseNode(Patched(b, metadata)).fields;
    var p, q := EraseNode(a).fields, EraseNode(b).fields;
    assert p == q;
    forall k | k !in RUNTIME ensures k in x <==> k in y {
      assert k in p <==> k in a.fields;
      assert k in q <==> k in b.fields;
    }
    forall k | k in x ensures x[k] == y[k] {
      if k !in metadata.fields {
        assert p[k] == q[k];
      }
    }
  }

  lemma {:induction false} TwinPatch(db: Db, authorized: bool, path: string, metadata: Json)
    requires Twin(db) && DoPatch(db, authorized, path, metadata).Ok?
    ensures Twin(DoPatch(db, authorized, path, metadata).value)
  {
    var pat := PatternOf(path);
    TwinQueries(db, pat);
    var loc := Query(Fields(db.data), pat)[0];
    var dm, mm := Fields(db.data), Fields(db.meta);
    var dn, mn := At(dm, loc).value, At(mm, loc).value;
    ErasedFields(db.data);
    ErasedFields(db.meta);
    AtErased(dm, loc);
    AtErased(mm, loc);
    PatchedErased(dn, mn, metadata);
    PutErased(dm, loc, Patched(dn, metadata));
    PutErased(mm, loc, Patched(mn, metadata));
  }

  predicate IsRuntimeAttr(attr: string) {
    attr == "value" || attr == "targetValue"
  }

  lemma {:induction false} StampKeys(attr: string)
    requires IsRuntimeAttr(attr)
    ensures attr in RUNTIME && "ts_s-" + attr in RUNTIME && "ts_ns-" + attr in RUNTIME
  {
    assert "ts_s-" + "value" == "ts_s-value" && "ts_ns-" + "value" == "ts_ns-value";
    assert "ts_s-" + "targetValue" == "ts_s-targetValue" && "ts_ns-" + "targetValue" == "ts_ns-targetValue";
  }

  /** A set touches runtime keys only. */
  lemma {:induction false} StampedErased(node: Json, attr: string, value: Json, ts: Stamp)
    requires node.Obj? && IsRuntimeAttr(attr)
    ensures EraseNode(Stamped(node, attr, value, ts)) == EraseNode(node)
  {
    StampKeys(attr);
    assert EraseNode(Stamped(node, attr, value, ts)).fields == EraseNode(node).fields;
  }

  lemma {:induction false} PutSame(root: Members, loc: Loc)
    requires At(root, loc).Some?
    ensures Put(root, loc, At(root, loc).value) == root
    decreases |loc|
  {
    if |loc| > 1 {
      PutSame(Kids(root[loc[0]]), loc[1..]);
      var n := root[loc[0]];
      assert n.fields["children" := Obj(Kids(n))] == n.fields;
    }
  }

  lemma {:induction false} SetErased(lib: Library, db: Db, path: string, attr: string, value: Json, ts: Stamp)
    requires IsRuntimeAttr(attr)
    ensures EraseKids(DoSet(lib, db, path, attr, value, ts).db.data) == EraseKids(db.data)
    ensures DoSet(lib, db, path, attr, value, ts).db.meta == db.meta
  {
    var r := DoSet(lib, db, path, attr, value, ts);
    if r.db != db {
      var loc := Query(Fields(db.data), PatternOf(path))[0];
      var root := Fields(db.data);
      var node := At(root, loc).value;
      var v := Sanitize(lib, node.fields, value).value;
      StampedErased(node, attr, v, ts);
      PutErased(root, loc, Stamped(node, attr, v, ts));
      AtErased(root, loc);
      PutSame(EraseMembers(root), loc);
      ErasedFields(db.data);
      DataIsObject(db.data, loc);
    }
  }

  lemma {:induction false} DataIsObject(j: Json, loc: Loc)
    requires At(Fields(j), loc).Some?
    ensures j.Obj?
  {
  }

  /** The gates let only value and targetValue through to setSignal. */
  lemma {:induction false} GatedAttr(lib: Library, db: Db, path: string, attr: string)
    requires IsWritable(lib, db, path) && IsAttributable(lib, db, path, attr)
    ensures IsRuntimeAttr(attr)
    ensures attr == "targetValue" ==> TypeText(lib, Selected(db, path)) == "actuator"
  {
  }

  datatype DbOp =
    | OpInit(tree: Json)
    | OpOverlay(authorized: bool, overlay: Json)
    | OpPatch(authorized: bool, path: string, metadata: Json)
    | OpSet(mayWrite: bool, path: string, attr: string, value: Json, ts: Stamp)

  /** A failing operation leaves the database as it was. */
  ghost function Apply(lib: Library, db: Db, op: DbOp): Db {
    match op
    case OpInit(tree) => DoInit(lib, tree)
    case OpOverlay(a, o) => (match DoOverlay(lib, db, a, o) case Ok(d) => d case Err(_) => db)
    case OpPatch(a, p, m) => (match DoPatch(db, a, p, m) case Ok(d) => d case Err(_) => db)
    case OpSet(w, p, at, v, ts) => DoCommand(lib, db, w, p, at, v, ts).db
  }

  ghost function ApplyOps(lib: Library, db: Db, ops: seq<DbOp>): Db
    decreases |ops|
  {
    if ops == [] then db else ApplyOps(lib, Apply(lib, db, ops[0]), ops[1..])
  }

  lemma {:induction false} TwinStep(lib: Library, db: Db, op: DbOp)
    requires Twin(db)
    ensures Twin(Apply(lib, db, op))
  {
    match op {
      case OpInit(tree) => TwinInit(lib, tree);
      case OpOverlay(a, o) =>
        if a {
          TwinOverlay(lib, db, a, o);
        }
      case OpPatch(a, p, m) =>
        if DoPatch(db, a, p, m).Ok? {
          TwinPatch(db, a, p, m);
        }
      case OpSet(w, p, at, v, ts) =>
        if Apply(lib, db, op) != db {
          GatedAttr(lib, db, p, at);
          SetErased(lib, db, p, at, v, ts);
        }
    }
  }

  /**
    Twin-tree invariant: after any run of initialisation, overlays, metadata patches and set
    commands, the data tree and the metadata tree differ in runtime keys only.
   */
  lemma {:induction false} TwinRun(lib: Library, db: Db, ops: seq<DbOp>)
    requires Twin(db)
    ensures Twin(ApplyOps(lib, db, ops))
    decreases |ops|
  {
    if ops != [] {
      TwinStep(lib, db, ops[0]);
      TwinRun(lib, Apply(lib, db, ops[0]), ops[1..]);
    }
  }
}
