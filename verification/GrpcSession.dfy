/**
  One gRPC subscribe stream: the request loop with its currentSubs and grpcSubsMap, its
  cleanup, and the notification worker that looks ids up in grpcSubsMap without a lock.
 */
module GrpcSession {
  import opened Basics
  import opened Subscriptions

  /** A request as it was answered by the handler; `id` is the freshly generated subscription id. */
  datatype Request =
    | Subscribe(key: Key, id: SubId)
    | SubscribeRefused(key: Key)
    | Unsubscribe(key: Key, ok: bool)

  /** currentSubs (by the spelling of the request) and the key set of grpcSubsMap. */
  datatype Maps = Maps(current: map<Key, SubId>, stream: set<SubId>)

  /** What one request does to the two maps. */
  function Handle(m: Maps, r: Request): Maps {
    match r
    case Subscribe(key, id) => Maps(m.current[key := id], m.stream + {id})
    case SubscribeRefused(_) => m
    case Unsubscribe(key, ok) =>
      if key in m.current && ok then Maps(m.current - {key}, m.stream - {m.current[key]}) else m
  }

  /** The maps after a list of requests. */
  function HandleAll(m: Maps, rs: seq<Request>): Maps
    decreases |rs|
  {
    if rs == [] then m else Handle(HandleAll(m, rs[..|rs| - 1]), rs[|rs| - 1])
  }

  /** Every id in currentSubs is a key of grpcSubsMap, and no two keys share an id. */
  ghost predicate MapsOk(m: Maps) {
    && (forall k | k in m.current :: m.current[k] in m.stream)
    && (forall k, l | k in m.current && l in m.current && m.current[k] == m.current[l] :: k == l)
  }

  /** The handler's ids are new: none is in `used`, and no two requests got the same. */
  ghost predicate Fresh(used: set<SubId>, rs: seq<Request>) {
    && (forall i | 0 <= i < |rs| && rs[i].Subscribe? :: rs[i].id !in used)
    && (forall i, j | 0 <= i < j < |rs| && rs[i].Subscribe? && rs[j].Subscribe? :: rs[i].id != rs[j].id)
  }

  lemma {:induction false} HandleOk(m: Maps, r: Request)
    requires MapsOk(m) && (r.Subscribe? ==> r.id !in m.stream)
    ensures MapsOk(Handle(m, r))
  {
  }

  /** Only ids of requests get into grpcSubsMap. */
  lemma {:induction false} StreamFromRequests(m: Maps, rs: seq<Request>, id: SubId)
    requires id in HandleAll(m, rs).stream
    ensures id in m.stream || exists i :: 0 <= i < |rs| && rs[i].Subscribe? && rs[i].id == id
    decreases |rs|
  {
    if rs != [] {
      var n := |rs| - 1;
      if id in HandleAll(m, rs[..n]).stream {
        StreamFromRequests(m, rs[..n], id);
      } else {
        assert rs[n].Subscribe? && rs[n].id == id;
      }
    }
  }

  lemma {:induction false} FreshNext(m: Maps, rs: seq<Request>, n: nat)
    requires n < |rs| && Fresh(m.stream, rs)
    ensures rs[n].Subscribe? ==> rs[n].id !in HandleAll(m, rs[..n]).stream
    ensures HandleAll(m, rs[..n + 1]) == Handle(HandleAll(m, rs[..n]), rs[n])
  {
    assert rs[..n + 1][..n] == rs[..n];
    if rs[n].Subscribe? && rs[n].id in HandleAll(m, rs[..n]).stream {
      StreamFromRequests(m, rs[..n], rs[n].id);
      assert false;
    }
  }

  // ------------------------------------------------------------------ ids without a key

  /** Ids the stream is still registered for although no key of currentSubs leads to them. */
  function Orphans(m: Maps): set<SubId> {
    m.stream - m.current.Values
  }

  /** The id that a request overwrites in currentSubs. */
  function Overwrites(m: Maps, r: Request): set<SubId> {
    if r.Subscribe? && r.key in m.current then {m.current[r.key]} else {}
  }

  /** All ids that the requests overwrite, each at the time of its request. */
  function Overwritten(m: Maps, rs: seq<Request>): set<SubId>
    decreases |rs|
  {
    if rs == [] then {}
    else
      var n := |rs| - 1;
      Overwritten(m, rs[..n]) + Overwrites(HandleAll(m, rs[..n]), rs[n])
  }

  lemma {:induction false} OrphansStep(m: Maps, r: Request)
    requires MapsOk(m) && (r.Subscribe? ==> r.id !in m.stream)
    ensures Orphans(Handle(m, r)) == Orphans(m) + Overwrites(m, r)
  {
    var m', o := Handle(m, r), Overwrites(m, r);
    forall id ensures id in Orphans(m') <==> id in Orphans(m) + o {
      OrphanIff(m, r, id);
    }
  }

  /** A value of the new map, traced back to the old one. */
  lemma {:induction false} OrphanIff(m: Maps, r: Request, id: SubId)
    requires MapsOk(m) && (r.Subscribe? ==> r.id !in m.stream)
    ensures id in Orphans(Handle(m, r)) <==> id in Orphans(m) || id in Overwrites(m, r)
  {
    var m' := Handle(m, r);
    if r.Subscribe? {
      assert m'.current[r.key] == r.id && r.id in m'.current.Values;
      forall k | k in m.current && k != r.key ensures m.current[k] in m'.current.Values {
        assert m'.current[k] == m.current[k];
      }
      if id in m'.current.Values && id != r.id {
        var k :| k in m'.current && m'.current[k] == id;
        assert k in m.current && m.current[k] == id;
      }
    } else if m' != m {
      forall k | k in m.current && k != r.key ensures m.current[k] in m'.current.Values {
        assert m'.current[k] == m.current[k];
      }
      if id in m'.current.Values {
        var k :| k in m'.current && m'.current[k] == id;
        assert k in m.current && m.current[k] == id;
      }
    }
  }

  /**
    Over every list of requests with fresh ids: the ids left in grpcSubsMap without a key are
    exactly those that a later subscribe of the same key overwrote.  Unsubscribing never removes
    one of them.
   */
  lemma {:induction false} OrphansAreOverwritten(m: Maps, rs: seq<Request>)
    requires MapsOk(m) && Fresh(m.stream, rs)
    ensures MapsOk(HandleAll(m, rs))
    ensures Orphans(HandleAll(m, rs)) == Orphans(m) + Overwritten(m, rs)
    decreases |rs|
  {
    if rs != [] {
      var n := |rs| - 1;
      OrphansAreOverwritten(m, rs[..n]);
      FreshNext(m, rs, n);
      assert rs[..n + 1] == rs;
      HandleOk(HandleAll(m, rs[..n]), rs[n]);
      OrphansStep(HandleAll(m, rs[..n]), rs[n]);
    }
  }

  /**
    The shortest case: unsubscribing a key that was subscribed twice removes the new id only.
   */
  lemma {:induction false} ResubscribeLeavesOld(m: Maps, key: Key, a: SubId, b: SubId)
    requires MapsOk(m) && a !in m.stream && b !in m.stream && a != b
    ensures
      var m' := Handle(Handle(Handle(m, Subscribe(key, a)), Subscribe(key, b)), Unsubscribe(key, true));
      a in m'.stream && b !in m'.stream && key !in m'.current && forall k | k in m'.current :: m'.current[k] != a
  {
  }

  // ------------------------------------------------------------------ imperative form

  /** The session object and its loop. */
  class StreamSession {
    var currentSubs: map<Key, SubId>
    var grpcSubsMap: set<SubId>

    ghost function View(): Maps
      reads this
    {
      Maps(currentSubs, grpcSubsMap)
    }

    constructor ()
      ensures View() == Maps(map[], {}) && MapsOk(View())
    {
      currentSubs, grpcSubsMap := map[], {};
    }

    /** One request: the maps stay consistent, and what has no key grows by what was overwritten. */
    method HandleRequest(r: Request)
      requires MapsOk(View()) && (r.Subscribe? ==> r.id !in grpcSubsMap)
      modifies this
      ensures View() == Handle(old(View()), r)
      ensures MapsOk(View()) && Orphans(View()) == Orphans(old(View())) + Overwrites(old(View()), r)
    {
      HandleOk(View(), r);
      OrphansStep(View(), r);
      match r {
        case Subscribe(key, id) =>
          currentSubs := currentSubs[key := id];
          grpcSubsMap := grpcSubsMap + {id};
        case SubscribeRefused(_) =>
        case Unsubscribe(key, ok) =>
          if key in currentSubs && ok {
            grpcSubsMap := grpcSubsMap - {currentSubs[key]};
            currentSubs := currentSubs - {key};
          }
      }
    }

    /**
      The loop over the stream.  It reads requests until the first one after which grpcSubsMap
      is empty, or to the end; `last` is the maps at that point, before the cleanup.
     */
    method Serve(requests: seq<Request>) returns (served: nat, ghost last: Maps)
      requires MapsOk(View()) && Fresh(grpcSubsMap, requests)
      modifies this
      ensures served <= |requests| && last == HandleAll(old(View()), requests[..served])
      ensures MapsOk(last) && Orphans(last) == Orphans(old(View())) + Overwritten(old(View()), requests[..served])
      ensures forall i | 0 < i < served :: HandleAll(old(View()), requests[..i]).stream != {}
      ensures served < |requests| ==> served > 0 && last.stream == {}
      ensures currentSubs == last.current && grpcSubsMap == {}
    {
      served := 0;
      ghost var before := View();
      while served < |requests|
        invariant served <= |requests| && MapsOk(View())
        invariant View() == HandleAll(before, requests[..served])
        invariant forall i | 0 < i <= served :: HandleAll(before, requests[..i]).stream != {}
      {
        FreshNext(before, requests, served);
        HandleRequest(requests[served]);
        served := served + 1;
        if grpcSubsMap == {} {
          break;
        }
      }
      last := View();
      FreshPrefix(before.stream, requests, served);
      OrphansAreOverwritten(before, requests[..served]);
      // cleanup
      grpcSubsMap := {};
    }
  }

  lemma {:induction false} FreshPrefix(used: set<SubId>, rs: seq<Request>, n: nat)
    requires n <= |rs| && Fresh(used, rs)
    ensures Fresh(used, rs[..n])
  {
  }

  // ------------------------------------------------------------------ with the worker

  datatype Phase = Serving | Leaving | Unsubscribed | Closed

  datatype WorkerPc = WIdle | WHas(id: SubId) | WFound(id: SubId)

  /**
    conn      the stream's connection id
    pending   a subscription the handler has accepted and the loop has not registered yet
    log       history: the requests completed
    issued    ids handed out to this stream
    written   history: ids the worker wrote to the stream
   */
  datatype State = State(
    conn: ConnId, table: Table, maps: Maps, pending: Option<(Key, SubId)>, phase: Phase, log: seq<Request>,
    issued: set<SubId>, worker: WorkerPc, written: seq<SubId>)

  const NoMaps := Maps(map[], {})

  function Init(conn: ConnId, table: Table): State {
    State(conn, table, Maps(map[], {}), None, Serving, [], {}, WIdle, [])
  }

  datatype Event =
    | Accepted(key: Key, path: Key, id: SubId)   // the handler stores the subscription under `path`
    | Register                                   // the loop enters it into its two maps
    | Refused(key: Key)
    | Unsub(key: Key, ok: bool)
    | StreamEnds
    | CleanupUnsubscribe(victims: map<Key, SubId>)
    | CleanupClear
    | Pop(id: SubId)
    | Look
    | Write

  ghost predicate Enabled(s: State, e: Event) {
    match e
    case Accepted(_, _, id) => s.phase == Serving && s.pending.None? && id !in s.issued && !Lives(s.table, id)
    case Register => s.phase == Serving && s.pending.Some?
    case Refused(_) => s.phase == Serving && s.pending.None?
    case Unsub(_, _) => s.phase == Serving && s.pending.None?
    case StreamEnds => s.phase == Serving && s.pending.None?
    case CleanupUnsubscribe(v) => s.phase == Leaving && IsVictims(s.table, s.conn, v)
    case CleanupClear => s.phase == Unsubscribed
    case Pop(id) => s.worker == WIdle && id in s.issued
    case Look => s.worker.WHas?
    case Write => s.worker.WFound?
  }

  /** The end of a round: leave the loop when grpcSubsMap is empty. */
  function Round(s: State, r: Request): State {
    var m := Handle(s.maps, r);
    s.(maps := m, pending := None, log := s.log + [r], phase := if m.stream == {} then Leaving else Serving)
  }

  ghost function Next(s: State, e: Event): State
    requires Enabled(s, e)
  {
    match e
    case Accepted(key, path, id) =>
      s.(table := AddSub(s.table, path, id, Channel(s.conn, Grpc)),
         issued := s.issued + {id}, pending := Some((key, id)))
    case Register => Round(s, Subscribe(s.pending.value.0, s.pending.value.1))
    case Refused(key) => Round(s, SubscribeRefused(key))
    case Unsub(key, ok) =>
      var s' := Round(s, Unsubscribe(key, ok));
      if key in s.maps.current && ok then s'.(table := DropSub(s.table, s.maps.current[key])) else s'
    case StreamEnds => s.(phase := Leaving)
    case CleanupUnsubscribe(v) => s.(table := DropVictims(s.table, v), phase := Unsubscribed)
    case CleanupClear => s.(maps := s.maps.(stream := {}), phase := Closed)
    case Pop(id) => s.(worker := WHas(id))
    case Look => s.(worker := if s.worker.id in s.maps.stream then WFound(s.worker.id) else WIdle)
    case Write => s.(worker := WIdle, written := s.written + [s.worker.id])
  }

  ghost predicate ValidRun(s: State, run: seq<Event>)
    decreases |run|
  {
    run == [] || (Enabled(s, run[0]) && ValidRun(Next(s, run[0]), run[1..]))
  }

  ghost function Exec(s: State, run: seq<Event>): State
    requires ValidRun(s, run)
    decreases |run|
  {
    if run == [] then s else Exec(Next(s, run[0]), run[1..])
  }

  /** The log holds issued ids, each at most once, and not the pending one. */
  ghost predicate LogOk(log: seq<Request>, issued: set<SubId>, pending: Option<(Key, SubId)>) {
    && Fresh({}, log)
    && (forall i | 0 <= i < |log| && log[i].Subscribe? :: log[i].id in issued)
    && (pending.Some? ==> forall i | 0 <= i < |log| && log[i].Subscribe? :: log[i].id != pending.value.1)
  }

  ghost predicate Inv(s: State) {
    && (s.phase != Closed ==> MapsOk(s.maps) && s.maps == HandleAll(NoMaps, s.log))
    && LogOk(s.log, s.issued, s.pending)
    && s.maps.stream <= s.issued
    && (s.pending.Some? ==> s.phase == Serving && s.pending.value.1 !in s.maps.stream && s.pending.value.1 in s.issued)
    && (s.phase == Serving && s.log != [] ==> s.maps.stream != {})
    && (s.phase == Closed ==> s.maps.stream == {})
    && (s.worker.WHas? || s.worker.WFound? ==> s.worker.id in s.issued)
    && (forall i | 0 <= i < |s.written| :: s.written[i] in s.issued)
  }

  /** The end of a round extends the log by a request whose id, if any, is new. */
  lemma {:induction false} RoundInv(s: State, r: Request)
    requires Inv(s) && s.phase == Serving
    requires r.Subscribe? ==> s.pending.Some? && r.id == s.pending.value.1
    ensures Inv(Round(s, r))
  {
    HandleOk(s.maps, r);
    LogRound(s.log, r);
    LogAppend(s.log, r, s.issued, s.pending);
  }

  lemma {:induction false} LogRound(log: seq<Request>, r: Request)
    ensures HandleAll(NoMaps, log + [r]) == Handle(HandleAll(NoMaps, log), r)
  {
    assert (log + [r])[..|log|] == log;
  }

  lemma {:induction false} LogAppend(log: seq<Request>, r: Request, issued: set<SubId>, pending: Option<(Key, SubId)>)
    requires LogOk(log, issued, pending) && (pending.Some? ==> pending.value.1 in issued)
    requires r.Subscribe? ==> pending.Some? && r.id == pending.value.1
    ensures LogOk(log + [r], issued, None)
  {
  }

  lemma {:induction false} StepInv(s: State, e: Event)
    requires Inv(s) && Enabled(s, e)
    ensures Inv(Next(s, e))
  {
    match e {
      case Register => RoundInv(s, Subscribe(s.pending.value.0, s.pending.value.1));
      case Refused(key) => RoundInv(s, SubscribeRefused(key));
      case Unsub(key, ok) => RoundInv(s, Unsubscribe(key, ok));
      case _ =>
    }
  }

  lemma {:induction false} RunInv(s: State, run: seq<Event>)
    requires Inv(s) && ValidRun(s, run)
    ensures Inv(Exec(s, run))
    decreases |run|
  {
    if run != [] {
      StepInv(s, run[0]);
      RunInv(Next(s, run[0]), run[1..]);
    }
  }

  /** In every run: ids in currentSubs are keys of grpcSubsMap; the loop goes on only while that is non-empty. */
  lemma {:induction false} SessionInvariant(conn: ConnId, table: Table, run: seq<Event>)
    requires ValidRun(Init(conn, table), run)
    ensures
      var s := Exec(Init(conn, table), run);
      && (s.phase != Closed ==> forall k | k in s.maps.current :: s.maps.current[k] in s.maps.stream)
      && (s.phase == Serving && s.log != [] ==> s.maps.stream != {})
      && (s.phase == Closed ==> s.maps.stream == {})
  {
    RunInv(Init(conn, table), run);
  }

  /** In every run, what the stream is registered for without a key is exactly what was overwritten. */
  lemma {:induction false} RunOrphans(conn: ConnId, table: Table, run: seq<Event>)
    requires ValidRun(Init(conn, table), run) && Exec(Init(conn, table), run).phase != Closed
    ensures
      var s := Exec(Init(conn, table), run);
      Orphans(s.maps) == Overwritten(NoMaps, s.log)
  {
    RunInv(Init(conn, table), run);
    OrphansAreOverwritten(NoMaps, Exec(Init(conn, table), run).log);
  }

  /** Successful unsubscribe requests for the keys of a list. */
  function Unsubs(order: seq<Key>): seq<Event>
    decreases |order|
  {
    if order == [] then [] else [Unsub(order[0], true)] + Unsubs(order[1..])
  }

  /** `order` lists every key of the map once. */
  ghost predicate Lists(order: seq<Key>, m: map<Key, SubId>) {
    && (forall k :: k in order <==> k in m)
    && (forall i, j | 0 <= i < j < |order| :: order[i] != order[j])
  }

  /** One successful unsubscribe: its key goes, the ids without a key stay. */
  lemma {:induction false} UnsubStep(s: State, k: Key)
    requires Inv(s) && s.phase == Serving && s.pending.None? && k in s.maps.current
    ensures
      var s' := Next(s, Unsub(k, true));
      && Inv(s') && s'.pending.None? && s'.maps.current == s.maps.current - {k}
      && Orphans(s'.maps) == Orphans(s.maps)
      && s'.phase == if s'.maps.stream == {} then Leaving else Serving
  {
    StepInv(s, Unsub(k, true));
    OrphansStep(s.maps, Unsubscribe(k, true));
  }

  /** A key in currentSubs keeps grpcSubsMap non-empty; without keys only orphans are left. */
  lemma {:induction false} EmptyWhen(m: Maps)
    requires MapsOk(m)
    ensures m.stream == {} <==> m.current == map[] && Orphans(m) == {}
  {
    if m.stream == {} {
      assert forall k | k in m.current :: m.current[k] in m.stream;
    }
    if m.current == map[] {
      assert Orphans(m) == m.stream;
    }
  }

  lemma {:induction false} UnsubscribeAllKeys(s: State, order: seq<Key>)
    requires Inv(s) && s.phase == Serving && s.pending.None? && order != [] && Lists(order, s.maps.current)
    ensures ValidRun(s, Unsubs(order))
    ensures Exec(s, Unsubs(order)).phase == if Orphans(s.maps) == {} then Leaving else Serving
    decreases |order|
  {
    var k := order[0];
    assert k in order;
    var s' := Next(s, Unsub(k, true));
    UnsubStep(s, k);
    ListsRest(order, s.maps.current);
    EmptyWhen(s'.maps);
    assert Unsubs(order)[1..] == Unsubs(order[1..]);
    if |order| > 1 {
      assert order[1..][0] in order[1..];
      UnsubscribeAllKeys(s', order[1..]);
    } else {
      assert forall j :: j !in order[1..];
      assert Unsubs(order[1..]) == [] && ValidRun(s', []) && Exec(s', []) == s';
    }
  }

  /**
    Unsubscribing every key ends the loop if and only if no key was ever subscribed again while
    it was still subscribed (that is, if nothing was overwritten).
   */
  lemma {:induction false} UnsubscribingAllEnds(s: State, order: seq<Key>)
    requires Inv(s) && s.phase == Serving && s.pending.None? && order != [] && Lists(order, s.maps.current)
    ensures ValidRun(s, Unsubs(order))
    ensures Exec(s, Unsubs(order)).phase == if Overwritten(NoMaps, s.log) == {} then Leaving else Serving
  {
    UnsubscribeAllKeys(s, order);
    OrphansAreOverwritten(NoMaps, s.log);
  }

  lemma {:induction false} ListsRest(order: seq<Key>, m: map<Key, SubId>)
    requires order != [] && Lists(order, m)
    ensures Lists(order[1..], m - {order[0]})
  {
    forall k ensures k in order[1..] <==> k in m - {order[0]} {
      assert k in order <==> k == order[0] || k in order[1..];
    }
  }

  /** What the handler's table holds for the stream after a subscribe or an unsubscribe of a key. */
  lemma {:induction false} TableFollows(s: State, e: Event, id: SubId)
    requires Enabled(s, e) && UniqueIds(s.table)
    ensures
      match e
      case Accepted(_, path, new') =>
        && path in Next(s, e).table && new' in Next(s, e).table[path]
        && Next(s, e).table[path][new'] == Channel(s.conn, Grpc)
        && (id != new' ==> (Lives(Next(s, e).table, id) <==> Lives(s.table, id)))
      case Unsub(key, ok) =>
        Lives(Next(s, e).table, id) <==>
          Lives(s.table, id) && !(ok && key in s.maps.current && s.maps.current[key] == id)
      case CleanupUnsubscribe(v) => AfterUnsubscribeAll(s.table, s.conn, Next(s, e).table)
      case _ => Next(s, e).table == s.table
  {
    match e
    case Accepted(_, path, new') =>
      forall k | k in s.table && id in s.table[k] && id != new'
        ensures id in Next(s, e).table[k]
      {
      }
    case Unsub(key, ok) =>
      if key in s.maps.current && ok {
        DropSubExact(s.table, s.maps.current[key]);
        forall k | k in s.table && id in s.table[k] && id != s.maps.current[key]
          ensures k in Next(s, e).table && id in Next(s, e).table[k]
        {
        }
      }
    case _ =>
  }

  // ------------------------------------------------------------------ after the cleanup

  lemma {:induction false} ClosedStep(s: State, e: Event)
    requires Inv(s) && s.phase == Closed && Enabled(s, e)
    ensures Next(s, e).phase == Closed
    ensures |Next(s, e).written| + Handles(Next(s, e)) <= |s.written| + Handles(s)
    ensures s.written <= Next(s, e).written
  {
  }

  /** The worker has looked a stream pointer up and not used it yet. */
  function Handles(s: State): nat {
    if s.worker.WFound? then 1 else 0
  }

  lemma {:induction false} ClosedRun(s: State, run: seq<Event>)
    requires Inv(s) && s.phase == Closed && ValidRun(s, run)
    ensures |Exec(s, run).written| + Handles(Exec(s, run)) <= |s.written| + Handles(s)
    ensures s.written <= Exec(s, run).written
    decreases |run|
  {
    if run != [] {
      StepInv(s, run[0]);
      ClosedStep(s, run[0]);
      ClosedRun(Next(s, run[0]), run[1..]);
    }
  }

  /**
    After the cleanup the stream is never written again, whatever ids the handler still stores
    for it, unless the worker had already looked the stream up when grpcSubsMap was cleared; in
    that case at most once.
   */
  lemma {:induction false} NoWriteAfterCleanup(s: State, run: seq<Event>)
    requires Inv(s) && s.phase == Closed && ValidRun(s, run)
    ensures !s.worker.WFound? ==> Exec(s, run).written == s.written
    ensures |Exec(s, run).written| <= |s.written| + 1
  {
    ClosedRun(s, run);
  }

  /** The exception is real: from any such state the write happens. */
  lemma {:induction false} LateWrite(s: State)
    requires Inv(s) && s.phase == Closed && s.worker.WFound?
    ensures ValidRun(s, [Write]) && Exec(s, [Write]).written == s.written + [s.worker.id]
  {
    var s' := Next(s, Write);
    assert [Write][1..] == [];
    assert ValidRun(s', []) && Exec(s', []) == s';
  }

  /** One more step at the end of a run. */
  lemma {:induction false} RunStep(s: State, run: seq<Event>, e: Event)
    requires ValidRun(s, run) && Enabled(Exec(s, run), e)
    ensures ValidRun(s, run + [e]) && Exec(s, run + [e]) == Next(Exec(s, run), e)
    decreases |run|
  {
    var all := run + [e];
    if run == [] {
      var s' := Next(s, e);
      assert all[1..] == [] && ValidRun(s', []) && Exec(s', []) == s';
    } else {
      assert all[0] == run[0] && all[1..] == run[1..] + [e];
      RunStep(Next(s, run[0]), run[1..], e);
    }
  }

  /**
    And such a state is reachable: the worker looks the id up, the client goes away, the
    cleanup runs to its end, and only then the worker writes.
   */
  lemma {:induction false} LateWriteReachable(conn: ConnId, key: Key, id: SubId) returns (run: seq<Event>)
    ensures ValidRun(Init(conn, map[]), run)
    ensures Exec(Init(conn, map[]), run).phase == Closed && Exec(Init(conn, map[]), run).written == []
    ensures ValidRun(Init(conn, map[]), run + [Write])
    ensures Exec(Init(conn, map[]), run + [Write]).written == [id]
  {
    var s0 := Init(conn, map[]);
    run := [];
    var s := s0;
    s := Go(s0, run, Accepted(key, key, id)); run := run + [Accepted(key, key, id)];
    s := Go(s0, run, Register); run := run + [Register];
    assert id in s.maps.stream;
    s := Go(s0, run, Pop(id)); run := run + [Pop(id)];
    s := Go(s0, run, Look); run := run + [Look];
    s := Go(s0, run, StreamEnds); run := run + [StreamEnds];
    var v := map[key := id];
    assert s.table == map[key := map[id := Channel(conn, Grpc)]];
    assert OfConn(s.table[key], conn) == {id};
    s := Go(s0, run, CleanupUnsubscribe(v)); run := run + [CleanupUnsubscribe(v)];
    s := Go(s0, run, CleanupClear); run := run + [CleanupClear];
    RunStep(s0, run, Write);
  }

  /** The state after one more step. */
  lemma {:induction false} Go(s0: State, run: seq<Event>, e: Event) returns (s: State)
    requires ValidRun(s0, run) && Enabled(Exec(s0, run), e)
    ensures ValidRun(s0, run + [e]) && s == Exec(s0, run + [e]) == Next(Exec(s0, run), e)
  {
    RunStep(s0, run, e);
    s := Exec(s0, run + [e]);
  }

  /** The cleanup leaves all but one of the stream's subscriptions under each key in the handler. */
  lemma {:induction false} CleanupLeaves(s: State, v: map<Key, SubId>, k: Key)
    requires Enabled(s, CleanupUnsubscribe(v)) && k in s.table
    ensures
      var t := Next(s, CleanupUnsubscribe(v)).table;
      var n := |OfConn(s.table[k], s.conn)|;
      k in t && |OfConn(t[k], s.conn)| == if n == 0 then 0 else n - 1
  {
    assert AfterUnsubscribeAll(s.table, s.conn, DropVictims(s.table, v));
    UnsubscribeAllOnePerKey(s.table, s.conn, DropVictims(s.table, v), k);
  }
}
