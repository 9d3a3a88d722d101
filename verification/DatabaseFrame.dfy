/** What a set command changes and what it leaves alone, over one command and over whole runs. */
module DatabaseFrame {
  import opened Basics
  import opened Json
  import opened Strings
  import opened Tree
  import opened TwinTree
  import opened Sanitizer
  import opened Database

  /** An attribute of a node of the data tree. */
  function DataAttr(db: Db, loc: Loc, k: string): Option<Json> {
    Attr(At(Fields(db.data), loc), k)
  }

  /** The location a successful set wrote to. */
  ghost predicate SetAt(lib: Library, db: Db, path: string, attr: string, value: Json, ts: Stamp, loc: Loc, v: Json) {
    && Query(Fields(db.data), PatternOf(path)) == [loc]
    && At(Fields(db.data), loc).Some? && At(Fields(db.data), loc).value.Obj?
    && "datatype" in At(Fields(db.data), loc).value.fields
    && Sanitize(lib, At(Fields(db.data), loc).value.fields, value) == Ok(v)
    && DoSet(lib, db, path, attr, value, ts).db ==
         db.(data := Obj(Put(Fields(db.data), loc, Stamped(At(Fields(db.data), loc).value, attr, v, ts))))
  }

  /** A set either writes one node or changes nothing; it publishes exactly when it writes. */
  lemma {:induction false} SetWritesOrNothing(lib: Library, db: Db, path: string, attr: string, value: Json, ts: Stamp)
    ensures
      var r := DoSet(lib, db, path, attr, value, ts);
      if r.published == [] then r.db == db
      else exists loc, v ::
             && SetAt(lib, db, path, attr, value, ts, loc, v)
             && r.published == [Publication(path, attr, v)] && r.error.None?
  {
    var r := DoSet(lib, db, path, attr, value, ts);
    if r.published != [] {
      var found := Query(Fields(db.data), PatternOf(path));
      var loc := found[0];
      assert found == [loc];
      var v := Sanitize(lib, At(Fields(db.data), loc).value.fields, value).value;
      assert SetAt(lib, db, path, attr, value, ts, loc, v);
    }
  }

  /** The attributes of the written node. */
  lemma {:induction false} StampedAttrs(node: Json, attr: string, v: Json, ts: Stamp, k: string)
    requires node.Obj? && IsRuntimeAttr(attr)
    ensures Attr(Some(Stamped(node, attr, v, ts)), k) ==
              if k == attr then Some(v)
              else if k == "ts_s-" + attr then Some(Int(ts.s))
              else if k == "ts_ns-" + attr then Some(Int(ts.ns))
              else Attr(Some(node), k)
    ensures Kids(Stamped(node, attr, v, ts)) == Kids(node)
  {
    StampKeys(attr);
    assert ("ts_s-" + attr)[0] == 't' && ("ts_ns-" + attr)[0] == 't';
    assert ("ts_s-" + attr)[3] == 's' && ("ts_ns-" + attr)[3] == 'n';
    assert |"ts_s-" + attr| == 5 + |attr|;
    assert ("ts_s-" + attr)[1] == 's' && ("ts_ns-" + attr)[1] == 's' && "targetValue"[1] == 'a';
    assert "children"[0] == 'c';
  }

  /**
    Frame of one set: of all attributes of all nodes, a successful set changes the attribute it
    sets and its two stamps at the node its path selects, and nothing else.
   */
  lemma {:induction false} SetFrame(
      lib: Library, db: Db, path: string, attr: string, value: Json, ts: Stamp, loc: Loc, v: Json, other: Loc,
      k: string)
    requires SetAt(lib, db, path, attr, value, ts, loc, v) && IsRuntimeAttr(attr) && k != "children"
    ensures
      var db' := DoSet(lib, db, path, attr, value, ts).db;
      DataAttr(db', other, k) ==
        if other == loc && k == attr then Some(v)
        else if other == loc && k == "ts_s-" + attr then Some(Int(ts.s))
        else if other == loc && k == "ts_ns-" + attr then Some(Int(ts.ns))
        else DataAttr(db, other, k)
  {
    var root := Fields(db.data);
    var node := At(root, loc).value;
    var new' := Stamped(node, attr, v, ts);
    StampedAttrs(node, attr, v, ts, k);
    if other == loc {
      PutAt(root, loc, new');
    } else if loc <= other {
      PutBelow(root, loc, new', other);
    } else if other <= loc {
      if other != [] {
        PutAbove(root, loc, new', other, k);
      }
    } else {
      PutElsewhere(root, loc, new', other);
    }
  }

  /** Set, then get: the sanitised value with the new time stamp. */
  lemma {:induction false} SetThenGet(
      lib: Library, db: Db, path: string, attr: string, value: Json, ts: Stamp, loc: Loc, v: Json)
    requires SetAt(lib, db, path, attr, value, ts, loc, v) && IsRuntimeAttr(attr)
    ensures DoGet(DoSet(lib, db, path, attr, value, ts).db, path, attr) == Ok(Datapoint(v, Int(ts.s), Int(ts.ns)))
  {
    var db' := DoSet(lib, db, path, attr, value, ts).db;
    SetErased(lib, db, path, attr, value, ts);
    ErasedFields(db.data);
    ErasedFields(db'.data);
    QueryErased(Fields(db.data), PatternOf(path));
    QueryErased(Fields(db'.data), PatternOf(path));
    AttrNotChildren(attr);
    SetFrame(lib, db, path, attr, value, ts, loc, v, loc, attr);
    SetFrame(lib, db, path, attr, value, ts, loc, v, loc, "ts_s-" + attr);
    SetFrame(lib, db, path, attr, value, ts, loc, v, loc, "ts_ns-" + attr);
  }

  lemma {:induction false} AttrNotChildren(attr: string)
    requires IsRuntimeAttr(attr)
    ensures attr != "children" && "ts_s-" + attr != "children" && "ts_ns-" + attr != "children"
    ensures "ts_s-" + attr != attr && "ts_ns-" + attr != attr && "ts_s-" + attr != "ts_ns-" + attr
  {
    assert ("ts_s-" + attr)[0] == 't' && ("ts_ns-" + attr)[0] == 't' && "children"[0] == 'c';
    assert |"ts_s-" + attr| == 5 + |attr| && |"ts_ns-" + attr| == 6 + |attr|;
  }

  // ------------------------------------------------------------------ the command

  /** A command that does not answer Done changes nothing and publishes nothing. */
  lemma {:induction false} RejectedChangesNothing(
      lib: Library, db: Db, mayWrite: bool, path: string, attr: string, value: Json, ts: Stamp)
    ensures
      var r := DoCommand(lib, db, mayWrite, path, attr, value, ts);
      && (r.answer != Done ==> r.db == db && r.published == [])
      && (!mayWrite ==> r.answer != Done)
      && (r.answer == Done ==> r.db.meta == db.meta)
  {
    SetWritesOrNothing(lib, db, path, attr, value, ts);
  }

  /** A command that answers Done wrote its one node and published once, and get returns it. */
  lemma {:induction false} DoneWrites(
      lib: Library, db: Db, mayWrite: bool, path: string, attr: string, value: Json, ts: Stamp)
    requires DoCommand(lib, db, mayWrite, path, attr, value, ts).answer == Done
    ensures
      var r := DoCommand(lib, db, mayWrite, path, attr, value, ts);
      exists loc, v ::
        && SetAt(lib, db, path, attr, value, ts, loc, v)
        && r.published == [Publication(path, attr, v)]
        && DoGet(r.db, path, attr) == Ok(Datapoint(v, Int(ts.s), Int(ts.ns)))
  {
    GatedAttr(lib, db, path, attr);
    SelectedFound(lib, db, path);
    SetWritesOrNothing(lib, db, path, attr, value, ts);
    var loc, v :| SetAt(lib, db, path, attr, value, ts, loc, v)
                  && DoSet(lib, db, path, attr, value, ts).published == [Publication(path, attr, v)];
    SetThenGet(lib, db, path, attr, value, ts, loc, v);
  }

  lemma {:induction false} SelectedFound(lib: Library, db: Db, path: string)
    requires IsWritable(lib, db, path)
    ensures |Query(Fields(db.data), PatternOf(path))| == 1 && Selected(db, path).Some?
  {
  }

  // ------------------------------------------------------------------ runs of commands

  datatype Request = Request(mayWrite: bool, path: string, attr: string, value: Json, ts: Stamp)

  ghost function Command(lib: Library, db: Db, r: Request): Db {
    DoCommand(lib, db, r.mayWrite, r.path, r.attr, r.value, r.ts).db
  }

  ghost function Commands(lib: Library, db: Db, rs: seq<Request>): Db
    decreases |rs|
  {
    if rs == [] then db else Commands(lib, Command(lib, db, rs[0]), rs[1..])
  }

  const TARGET_KEYS: set<string> := {"targetValue", "ts_s-targetValue", "ts_ns-targetValue"}

  /** What a change of an attribute implies about the node and the attribute. */
  ghost predicate MayChange(lib: Library, db: Db, loc: Loc, k: string) {
    var t := TypeText(lib, At(Fields(db.data), loc));
    && (t == "sensor" || t == "actuator")
    && k in RUNTIME
    && (k in TARGET_KEYS ==> t == "actuator")
  }

  lemma {:induction false} CommandFrame(lib: Library, db: Db, r: Request, loc: Loc, k: string)
    requires k != "children"
    ensures
      DataAttr(Command(lib, db, r), loc, k) == DataAttr(db, loc, k) || MayChange(lib, db, loc, k)
  {
    var c := DoCommand(lib, db, r.mayWrite, r.path, r.attr, r.value, r.ts);
    if c.db != db {
      SetWritesOrNothing(lib, db, r.path, r.attr, r.value, r.ts);
      var at, v :| SetAt(lib, db, r.path, r.attr, r.value, r.ts, at, v);
      GatedAttr(lib, db, r.path, r.attr);
      SetFrame(lib, db, r.path, r.attr, r.value, r.ts, at, v, loc, k);
      StampKeys(r.attr);
      TargetKeys(r.attr);
      if loc == at {
        assert Selected(db, r.path) == At(Fields(db.data), loc);
      }
    }
  }

  lemma {:induction false} TargetKeys(attr: string)
    requires IsRuntimeAttr(attr)
    ensures attr == "value" ==>
              attr !in TARGET_KEYS && "ts_s-" + attr !in TARGET_KEYS && "ts_ns-" + attr !in TARGET_KEYS
  {
    assert "ts_s-" + "value" == "ts_s-value" && "ts_ns-" + "value" == "ts_ns-value";
  }

  /**
    Over any run of set commands: an attribute of a node changes only if the node is a sensor or
    an actuator and the attribute is a runtime key; target values and their stamps only on
    actuators.  Types never change, so "is a sensor" means the same throughout.
   */
  lemma {:induction false} CommandsFrame(lib: Library, db: Db, rs: seq<Request>, loc: Loc, k: string)
    requires k != "children"
    ensures DataAttr(Commands(lib, db, rs), loc, k) == DataAttr(db, loc, k) || MayChange(lib, db, loc, k)
    ensures DataAttr(Commands(lib, db, rs), loc, "type") == DataAttr(db, loc, "type")
    decreases |rs|
  {
    if rs != [] {
      var db' := Command(lib, db, rs[0]);
      CommandFrame(lib, db, rs[0], loc, k);
      CommandFrame(lib, db, rs[0], loc, "type");
      NotRuntime(lib, db, db', loc, k);
      CommandsFrame(lib, db', rs[1..], loc, k);
    }
  }

  /** The type is no runtime key, and only the type of a node decides what may change there. */
  lemma {:induction false} NotRuntime(lib: Library, db: Db, db': Db, loc: Loc, k: string)
    ensures !MayChange(lib, db, loc, "type")
    ensures DataAttr(db', loc, "type") == DataAttr(db, loc, "type") ==>
              (MayChange(lib, db', loc, k) <==> MayChange(lib, db, loc, k))
  {
  }

  // ------------------------------------------------------------------ literal publication

  /** The locations a concrete path selects are the path itself. */
  lemma {:induction false} FitsConcrete(path: string, loc: Loc)
    requires Fits(loc, PatternOf(path)) && "*" !in Split(path, '/')
    ensures loc == Split(path, '/')
  {
    var els, pat := Split(path, '/'), PatternOf(path);
    forall i | 0 <= i < |loc| ensures loc[i] == els[i] {
      assert Selects(pat[i], loc[i]) && els[i] in els;
    }
  }

  /**
    A set is published under the spelling of its request.  That is the path of the node it
    wrote, the one a subscription to that node has, exactly when the request had no wildcard.
   */
  lemma {:induction false} PublishedUnderNode(
      lib: Library, db: Db, path: string, attr: string, value: Json, ts: Stamp, loc: Loc, v: Json)
    requires SetAt(lib, db, path, attr, value, ts, loc, v) && "*" !in loc && (forall n | n in loc :: '/' !in n)
    ensures path == Join(loc, '/') <==> "*" !in Split(path, '/')
  {
    QueryExact(Fields(db.data), PatternOf(path), loc);
    JoinSplit(path, '/');
    SplitJoin(loc, '/');
    if "*" !in Split(path, '/') {
      FitsConcrete(path, loc);
    }
  }
}
