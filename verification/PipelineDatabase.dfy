/**
  The pipeline and the database together: the changes that the pipeline logs are the
  publications of setSignal, so what subscribers hear can be compared with what get returns.
 */
module PipelineDatabase {
  import opened Basics
  import opened Json
  import opened Strings
  import opened Tree
  import opened TwinTree
  import opened Sanitizer
  import opened DatabaseFrame
  import D = Database
  import P = Pipeline
  import T = PipelineTheorems
  import S = Subscriptions
  import PipelineScenarios
  import W = PipelineWitnesses

  /** A call of setSignal. */
  datatype SetCall = SetCall(path: string, attr: string, value: Json, ts: D.Stamp)

  ghost function Run(lib: Library, db: D.Db, c: SetCall): D.SetResult {
    D.DoSet(lib, db, c.path, c.attr, c.value, c.ts)
  }

  /** The change that publishForVSSPath is called with, if the set gets that far. */
  ghost function Changes(lib: Library, db: D.Db, c: SetCall): seq<P.Change> {
    var published := Run(lib, db, c).published;
    seq(|published|, i requires 0 <= i < |published| =>
      P.Change(S.Key(published[i].path, published[i].attr), DatatypeOf(lib, db, c.path), published[i].value))
  }

  function DatatypeOf(lib: Library, db: D.Db, path: string): string {
    match Attr(D.Selected(db, path), "datatype") case Some(t) => lib.text(t) case None => ""
  }

  /** The change of a set carries the text of the datatype of the node it wrote. */
  lemma {:induction false} ChangeDatatype(lib: Library, db: D.Db, c: SetCall, loc: Loc, v: Json)
    requires SetAt(lib, db, c.path, c.attr, c.value, c.ts, loc, v) && Run(lib, db, c).published != []
    ensures Changes(lib, db, c) ==
              [P.Change(S.Key(c.path, c.attr), lib.text(At(Fields(db.data), loc).value.fields["datatype"]), v)]
  {
  }

  /** The database after a list of sets, and the changes they published, in order. */
  ghost function After(lib: Library, db: D.Db, cs: seq<SetCall>): D.Db
    decreases |cs|
  {
    if cs == [] then db else Run(lib, After(lib, db, cs[..|cs| - 1]), cs[|cs| - 1]).db
  }

  ghost function LogOf(lib: Library, db: D.Db, cs: seq<SetCall>): seq<P.Change>
    decreases |cs|
  {
    if cs == [] then []
    else
      var front := cs[..|cs| - 1];
      LogOf(lib, db, front) + Changes(lib, After(lib, db, front), cs[|cs| - 1])
  }

  /** A path without wildcards and one of the two attributes that the set gates let through. */
  predicate Plain(path: string, attr: string) {
    "*" !in Split(path, '/') && D.IsRuntimeAttr(attr)
  }

  ghost predicate AllPlain(cs: seq<SetCall>) {
    forall i | 0 <= i < |cs| :: Plain(cs[i].path, cs[i].attr)
  }

  // ------------------------------------------------------------------ one set

  /** A concrete path selects its own location, and no two concrete paths the same. */
  lemma {:induction false} ConcreteLoc(db: D.Db, path: string, loc: Loc)
    requires "*" !in Split(path, '/') && loc in Query(Fields(db.data), PatternOf(path))
    ensures loc == Split(path, '/') && path == Join(loc, '/')
  {
    QueryExact(Fields(db.data), PatternOf(path), loc);
    FitsConcrete(path, loc);
    JoinSplit(path, '/');
  }

  /** The attributes that get reads for one runtime attribute are not those of the other one. */
  lemma {:induction false} StampNotAttr(attr: string, other: string)
    requires D.IsRuntimeAttr(attr) && D.IsRuntimeAttr(other)
    ensures other != "ts_s-" + attr && other != "ts_ns-" + attr
    ensures "children" !in {other, "ts_s-" + other, "ts_ns-" + other}
    ensures "ts_s-" + other != "ts_ns-" + attr
    ensures attr != other ==> "ts_s-" + attr != "ts_s-" + other && "ts_ns-" + attr != "ts_ns-" + other
  {
    assert |other| > 1 && other[1] == 'a';
    assert ("ts_s-" + attr)[1] == 's' && ("ts_ns-" + attr)[1] == 's' && "children"[1] == 'h';
    assert ("ts_s-" + other)[1] == 's' && ("ts_ns-" + other)[1] == 's';
    assert ("ts_s-" + other)[3] == 's' && ("ts_ns-" + attr)[3] == 'n';
    assert ("ts_s-" + attr)[5..] == attr && ("ts_s-" + other)[5..] == other;
    assert ("ts_ns-" + attr)[6..] == attr && ("ts_ns-" + other)[6..] == other;
  }

  /** A set leaves the queries alone. */
  lemma {:induction false} QueriesStay(lib: Library, db: D.Db, c: SetCall, pat: seq<Sel>)
    requires D.IsRuntimeAttr(c.attr)
    ensures Query(Fields(Run(lib, db, c).db.data), pat) == Query(Fields(db.data), pat)
  {
    var db' := Run(lib, db, c).db;
    D.SetErased(lib, db, c.path, c.attr, c.value, c.ts);
    D.ErasedFields(db.data);
    D.ErasedFields(db'.data);
    QueryErased(Fields(db.data), pat);
    QueryErased(Fields(db'.data), pat);
  }

  /** What get returns depends on three attributes of the node it finds. */
  lemma {:induction false} SameGet(db: D.Db, db': D.Db, path: string, attr: string)
    requires Query(Fields(db'.data), PatternOf(path)) == Query(Fields(db.data), PatternOf(path))
    requires var found := Query(Fields(db.data), PatternOf(path));
             found != [] ==>
               && DataAttr(db', found[0], attr) == DataAttr(db, found[0], attr)
               && DataAttr(db', found[0], "ts_s-" + attr) == DataAttr(db, found[0], "ts_s-" + attr)
               && DataAttr(db', found[0], "ts_ns-" + attr) == DataAttr(db, found[0], "ts_ns-" + attr)
    ensures D.DoGet(db', path, attr) == D.DoGet(db, path, attr)
  {
  }

  /** A set on another path, or of another attribute, does not change what get returns. */
  lemma {:induction false} GetElsewhere(
      lib: Library, db: D.Db, c: SetCall, path: string, attr: string, loc: Loc, v: Json)
    requires Plain(c.path, c.attr) && Plain(path, attr) && (c.path != path || c.attr != attr)
    requires SetAt(lib, db, c.path, c.attr, c.value, c.ts, loc, v)
    ensures D.DoGet(Run(lib, db, c).db, path, attr) == D.DoGet(db, path, attr)
  {
    QueriesStay(lib, db, c, PatternOf(path));
    ConcreteLoc(db, c.path, loc);
    StampNotAttr(c.attr, attr);
    StampNotAttr(attr, c.attr);
    var found := Query(Fields(db.data), PatternOf(path));
    if found != [] {
      ConcreteLoc(db, path, found[0]);
      SetFrame(lib, db, c.path, c.attr, c.value, c.ts, loc, v, found[0], attr);
      SetFrame(lib, db, c.path, c.attr, c.value, c.ts, loc, v, found[0], "ts_s-" + attr);
      SetFrame(lib, db, c.path, c.attr, c.value, c.ts, loc, v, found[0], "ts_ns-" + attr);
    }
    SameGet(db, Run(lib, db, c).db, path, attr);
  }

  /**
    One set: if it publishes, get of its path and attribute returns the published value with the
    time stamp of the set; every other get, and every get after a set that does not publish,
    returns what it returned before.
   */
  lemma {:induction false} GotAfter(lib: Library, db: D.Db, c: SetCall, path: string, attr: string)
    requires Plain(c.path, c.attr) && Plain(path, attr)
    ensures
      var published := Run(lib, db, c).published;
      D.DoGet(Run(lib, db, c).db, path, attr) ==
        if published != [] && c.path == path && c.attr == attr
        then Ok(D.Datapoint(published[0].value, Int(c.ts.s), Int(c.ts.ns)))
        else D.DoGet(db, path, attr)
    ensures |Run(lib, db, c).published| <= 1
    ensures forall p | p in Run(lib, db, c).published :: p.path == c.path && p.attr == c.attr
  {
    var r := Run(lib, db, c);
    SetWritesOrNothing(lib, db, c.path, c.attr, c.value, c.ts);
    if r.published != [] {
      var loc, v :| SetAt(lib, db, c.path, c.attr, c.value, c.ts, loc, v)
                    && r.published == [D.Publication(c.path, c.attr, v)];
      if c.path == path && c.attr == attr {
        SetThenGet(lib, db, path, attr, c.value, c.ts, loc, v);
      } else {
        GetElsewhere(lib, db, c, path, attr, loc, v);
      }
    }
  }

  // ------------------------------------------------------------------ runs of sets

  /** `now` is `before` if nothing was logged, and otherwise holds the last value logged. */
  ghost predicate Holds(now: Got, before: Got, log: seq<Json>) {
    if log == [] then now == before else now.Ok? && now.value.value == log[|log| - 1]
  }

  type Got = Result<D.Datapoint, D.DbError>

  /** The same set, in terms of the change it adds to the log. */
  lemma {:induction false} ChangeIsGot(lib: Library, db: D.Db, c: SetCall, path: string, attr: string)
    requires Plain(c.path, c.attr) && Plain(path, attr)
    ensures
      var more, k := Changes(lib, db, c), S.Key(path, attr);
      && |more| <= 1
      && Holds(D.DoGet(Run(lib, db, c).db, path, attr), D.DoGet(db, path, attr),
               if more != [] && more[0].key == k then [more[0].value] else [])
  {
    GotAfter(lib, db, c, path, attr);
    var published := Run(lib, db, c).published;
    assert published != [] ==> published[0] in published;
  }

  lemma {:induction false} LogGrows(log: seq<P.Change>, more: seq<P.Change>, k: S.Key, now: Got, mid: Got, before: Got)
    requires |more| <= 1 && Holds(mid, before, P.ByKey(log, k))
    requires Holds(now, mid, if more != [] && more[0].key == k then [more[0].value] else [])
    ensures Holds(now, before, P.ByKey(log + more, k))
  {
    if more == [] {
      assert log + more == log;
    } else {
      assert more == [more[0]];
      P.ByKeyAppend(log, more[0], k);
    }
  }

  lemma {:induction false} OneMore(
      lib: Library, db: D.Db, c: SetCall, path: string, attr: string, log: seq<P.Change>, before: Got)
    requires Plain(c.path, c.attr) && Plain(path, attr)
    requires Holds(D.DoGet(db, path, attr), before, P.ByKey(log, S.Key(path, attr)))
    ensures Holds(D.DoGet(Run(lib, db, c).db, path, attr), before,
                  P.ByKey(log + Changes(lib, db, c), S.Key(path, attr)))
  {
    ChangeIsGot(lib, db, c, path, attr);
    LogGrows(log, Changes(lib, db, c), S.Key(path, attr),
             D.DoGet(Run(lib, db, c).db, path, attr), D.DoGet(db, path, attr), before);
  }

  /**
    After any run of sets on concrete paths, get returns for every signal and attribute the last
    value logged for it; if nothing was logged it returns what it returned before, time stamp,
    refusal and all.
   */
  lemma {:induction false} TreeHoldsLastLogged(lib: Library, db: D.Db, cs: seq<SetCall>, path: string, attr: string)
    requires AllPlain(cs) && Plain(path, attr)
    ensures
      var log := P.ByKey(LogOf(lib, db, cs), S.Key(path, attr));
      var now := D.DoGet(After(lib, db, cs), path, attr);
      if log == [] then now == D.DoGet(db, path, attr) else now.Ok? && now.value.value == log[|log| - 1]
    decreases |cs|
  {
    if cs != [] {
      var n := |cs| - 1;
      var front, c := cs[..n], cs[n];
      assert Plain(c.path, c.attr);
      TreeHoldsLastLogged(lib, db, front, path, attr);
      OneMore(lib, After(lib, db, front), c, path, attr, LogOf(lib, db, front), D.DoGet(db, path, attr));
    }
  }

  // ------------------------------------------------------------------ with the pipeline

  /**
    Subscribers and get agree.  When the sets logged by the pipeline are those of the database,
    and everything is delivered (no set in flight, empty buffer, idle worker, drained session),
    the last value a live websocket subscription has heard is the value that get returns now.
   */
  lemma {:induction false} LastHeardIsGot(s: P.State, id: S.SubId, lib: Library, db: D.Db, cs: seq<SetCall>)
    requires P.Reachable(s) && T.Settled(s, id)
    requires AllPlain(cs) && s.d.setLog == LogOf(lib, db, cs)
    requires Plain(s.d.info[id].key.path, s.d.info[id].key.attr)
    ensures
      var i := s.d.info[id];
      var heard := P.Heard(s.d.net.sessions[i.chan.conn].wire, id);
      var now := D.DoGet(After(lib, db, cs), i.key.path, i.key.attr);
      heard != [] ==> now.Ok? && now.value.value == heard[|heard| - 1]
  {
    var i := s.d.info[id];
    T.QuiescentDelivery(s, id);
    TreeHoldsLastLogged(lib, db, cs, i.key.path, i.key.attr);
    assert S.Key(i.key.path, i.key.attr) == i.key;
  }

  /**
    And its assumptions can be met by every run of sets: from every start-up some run of the
    pipeline logs exactly these sets, delivers to a subscriber of the given path and attribute
    all that was set on it, and leaves it with the value that get returns.
   */
  lemma {:induction false} EveryRunOfSetsHeard(
      run0: bool, lib: Library, db: D.Db, cs: seq<SetCall>, path: string, attr: string)
    returns (s: P.State, id: S.SubId)
    requires AllPlain(cs) && Plain(path, attr)
    ensures P.Reaches(P.Init(run0), s) && T.Settled(s, id) && s.d.info[id].key == S.Key(path, attr)
    ensures s.d.setLog == LogOf(lib, db, cs)
    ensures
      var heard := P.Heard(s.d.net.sessions[s.d.info[id].chan.conn].wire, id);
      var now := D.DoGet(After(lib, db, cs), path, attr);
      && heard == P.ByKey(LogOf(lib, db, cs), S.Key(path, attr))
      && (heard != [] ==> now.Ok? && now.value.value == heard[|heard| - 1])
  {
    s := W.EveryLogDelivered(run0, S.Key(path, attr), LogOf(lib, db, cs));
    id := PipelineScenarios.id1;
    assert P.Reachable(s);
    LastHeardIsGot(s, id, lib, db, cs);
  }
}
