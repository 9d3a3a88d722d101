/**
  gRPC notifications in the whole system: the worker, holding subMutex, looks an id up in the
  session's grpcSubsMap and writes to the stream it finds, while the session registers, erases
  and finally clears that map without a lock.
 */
module PipelineStreams {
  import opened Basics
  import opened Json
  import opened Subscriptions
  import opened Pipeline
  import opened PipelineInvariant
  import opened PipelineDelivery
  import opened PipelineTheorems

  /** The items sent on the stream of one session, in order. */
  function SentTo(items: seq<Item>, c: ConnId): seq<Item> {
    if items == [] then []
    else
      var last := items[|items| - 1];
      SentTo(items[..|items| - 1], c) + (if last.chan.conn == c then [last] else [])
  }

  lemma {:induction false} SentAppend(items: seq<Item>, x: Item, c: ConnId)
    ensures SentTo(items + [x], c) == SentTo(items, c) + (if x.chan.conn == c then [x] else [])
  {
    assert (items + [x])[..|items|] == items;
  }

  /** `a` is `b` with some elements left out. */
  predicate Sub<T(==)>(a: seq<T>, b: seq<T>)
    decreases |b|
  {
    a == [] || (b != [] && (
      || (a[|a| - 1] == b[|b| - 1] && Sub(a[..|a| - 1], b[..|b| - 1]))
      || Sub(a, b[..|b| - 1])))
  }

  // ------------------------------------------------------------------ subsequences

  lemma {:induction false} SubSkip<T>(a: seq<T>, b: seq<T>, x: T)
    requires Sub(a, b)
    ensures Sub(a, b + [x])
  {
    assert (b + [x])[..|b|] == b;
  }

  lemma {:induction false} SubBoth<T>(a: seq<T>, b: seq<T>, x: T)
    requires Sub(a, b)
    ensures Sub(a + [x], b + [x])
  {
    assert (b + [x])[..|b|] == b && (a + [x])[..|a|] == a;
  }

  lemma {:induction false} SubPrefix<T>(a: seq<T>, b: seq<T>, c: seq<T>)
    requires Sub(a, b) && b <= c
    ensures Sub(a, c)
    decreases |c|
  {
    if |b| < |c| {
      var n := |c| - 1;
      SubPrefix(a, b, c[..n]);
      assert c == c[..n] + [c[n]];
      SubSkip(a, c[..n], c[n]);
    } else {
      assert b == c;
    }
  }

  /** Leaving items out leaves values of one subscription out, and keeps their order. */
  lemma {:induction false} SubValues(a: seq<Item>, b: seq<Item>, id: SubId)
    requires Sub(a, b)
    ensures Sub(Values(a, id), Values(b, id))
    decreases |b|
  {
    if a != [] {
      var m, n := |a| - 1, |b| - 1;
      if a[m] == b[n] && Sub(a[..m], b[..n]) {
        SubValues(a[..m], b[..n], id);
        SubBoth(Values(a[..m], id), Values(b[..n], id), b[n].value);
        NothingAdded(Values(a[..m], id), Values(b[..n], id));
      } else {
        SubValues(a, b[..n], id);
        SubSkip(Values(a, id), Values(b[..n], id), b[n].value);
        NothingAdded(Values(a, id), Values(b[..n], id));
      }
    }
  }

  lemma {:induction false} NothingAdded<T>(a: seq<T>, b: seq<T>)
    ensures a + [] == a && b + [] == b
  {
  }

  // ------------------------------------------------------------------ order

  /** The gRPC item the worker has popped and not yet sent or skipped. */
  function Holding(w: WPc): Option<Item> {
    match w
    case WLook(item) => Some(item)
    case WStream(item) => Some(item)
    case _ => None
  }

  /** What was sent is what was popped, some items left out; the item in hand is the last popped. */
  ghost predicate Relayed(w: WPc, sent: seq<Item>, popped: seq<Item>) {
    match Holding(w)
    case None => Sub(sent, popped)
    case Some(item) =>
      popped != [] && popped[|popped| - 1] == item && Sub(sent, popped[..|popped| - 1])
  }

  ghost predicate Cleared(st: Streams) {
    forall c | c in st.closed :: StreamIds(st, c) == {}
  }

  ghost predicate StreamInv(s: State) {
    Relayed(Wk(s), s.d.streams.sent, s.d.popped) && Cleared(s.d.streams)
  }

  lemma {:induction false} RelayedPop(sent: seq<Item>, popped: seq<Item>, x: Item, w: WPc)
    requires Sub(sent, popped) && (Holding(w).Some? ==> Holding(w).value == x)
    ensures Relayed(w, sent, popped + [x])
  {
    assert (popped + [x])[..|popped|] == popped;
    SubSkip(sent, popped, x);
  }

  /** Whether the item in hand is sent or skipped, what was sent is part of what was popped. */
  lemma {:induction false} RelayedDone(w: WPc, sent: seq<Item>, popped: seq<Item>)
    requires Holding(w).Some? && Relayed(w, sent, popped)
    ensures Sub(sent, popped) && Sub(sent + [Holding(w).value], popped)
  {
    var front := popped[..|popped| - 1];
    assert popped == front + [Holding(w).value];
    SubSkip(sent, front, Holding(w).value);
    SubBoth(sent, front, Holding(w).value);
  }

  lemma {:induction false} RelayedWork(w: WPc, d: Data, ch: Choice)
    requires WorkEnabled(w, d, ch) && Relayed(w, d.streams.sent, d.popped)
    ensures
      var d' := WorkEffect(w, d, ch);
      Relayed(WorkPc(w, d), d'.streams.sent, d'.popped)
  {
    if w.WPop? {
      RelayedPop(d.streams.sent, d.popped, d.buffer[0], WorkPc(w, d));
    } else if Holding(w).Some? {
      RelayedDone(w, d.streams.sent, d.popped);
    } else {
      OtherWork(w, d, ch);
    }
  }

  lemma {:induction false} OtherWork(w: WPc, d: Data, ch: Choice)
    requires WorkEnabled(w, d, ch) && !w.WPop? && Holding(w).None?
    ensures Holding(WorkPc(w, d)).None?
    ensures WorkEffect(w, d, ch).streams == d.streams && WorkEffect(w, d, ch).popped == d.popped
  {
  }

  lemma {:induction false} StreamsAfter(s: State, e: Event)
    requires Enabled(s, e)
    ensures
      var st, st' := s.d.streams, Next(s, e).d.streams;
      && st'.sent == st.sent + (if e.Work? && Wk(s).WStream? then [Wk(s).item] else [])
      && var st1 := if e.Stream? then StreamEffect(st, e.streamOp) else st;
      && st'.maps == st1.maps && st'.closed == st1.closed
  {
    if e.Finish? {
      OpStreams(s.d, PcOf(s, Client(e.t)).op, e.choice);
    }
    assert Next(s, e).d.streams == Effect(s, e).streams;
  }

  lemma {:induction false} OpStreams(d: Data, op: Op, ch: Choice)
    requires OpAllowed(d, op, ch)
    ensures OpEffect(d, op, ch).streams == d.streams
  {
  }

  lemma {:induction false} ClearedStep(st: Streams, op: StreamOp)
    requires Cleared(st) && (op.Register? || op.Erase? ==> op.conn !in st.closed)
    ensures Cleared(StreamEffect(st, op))
  {
  }

  /** Where the worker can be after a step that is not its own work. */
  predicate Waits(w: WPc, w': WPc) {
    w' == w || (w == WWaiting && w' == WWoken) || (WWants(w).Some? && w' == WTaken(w))
  }

  lemma {:induction false} WorkerWaits(s: State, e: Event)
    requires Locks(s.th) && Enabled(s, e) && !e.Work?
    ensures Waits(Wk(s), Wk(Next(s, e)))
  {
    Known(s.th, Worker);
    if Actor(e) == Worker {
      NextThreads(s, e);
    } else {
      WorkerAfter(s, e);
    }
  }

  lemma {:induction false} WaitsHolds(w: WPc, w': WPc)
    requires Waits(w, w')
    ensures Holding(w') == Holding(w) && (w'.WStream? <==> w.WStream?)
  {
  }

  /** Only its own steps lead the worker to or from its look at a stream. */
  lemma {:induction false} WorkerMoves(s: State, e: Event)
    requires Locks(s.th) && Enabled(s, e) && !e.Work?
    ensures Holding(Wk(Next(s, e))) == Holding(Wk(s)) && (Wk(Next(s, e)).WStream? <==> Wk(s).WStream?)
  {
    WorkerWaits(s, e);
    WaitsHolds(Wk(s), Wk(Next(s, e)));
  }

  lemma {:induction false} StreamStep(s: State, e: Event)
    requires Locks(s.th) && StreamInv(s) && Enabled(s, e)
    ensures StreamInv(Next(s, e))
  {
    StreamsAfter(s, e);
    if e.Work? {
      RelayedWork(Wk(s), s.d, e.choice);
      WorkedTo(s, e.choice);
    } else {
      WorkerMoves(s, e);
      PoppedKept(s, e);
      if e.Stream? {
        ClearedStep(s.d.streams, e.streamOp);
      }
    }
  }

  lemma {:induction false} WorkedTo(s: State, ch: Choice)
    requires Enabled(s, Work(ch))
    ensures Wk(Next(s, Work(ch))) == WorkPc(Wk(s), s.d) && Next(s, Work(ch)).d == WorkEffect(Wk(s), s.d, ch)
  {
  }

  lemma {:induction false} StreamRun(s: State, run: seq<Event>)
    requires Inv(s) && StreamInv(s) && ValidRun(s, run)
    ensures StreamInv(Exec(s, run))
    decreases |run|
  {
    if run != [] {
      StreamStep(s, run[0]);
      StepInv(s, run[0]);
      StreamRun(Next(s, run[0]), run[1..]);
    }
  }

  lemma {:induction false} ReachableStreams(s: State)
    requires Reachable(s)
    ensures StreamInv(s)
  {
    var run0 :| Reaches(Init(run0), s);
    var run :| ValidRun(Init(run0), run) && Exec(Init(run0), run) == s;
    InitInv(run0);
    StreamRun(Init(run0), run);
  }

  /**
    Order on gRPC streams: in every reachable state, what the worker has sent for a subscription
    is what was set on its (path, attribute) since its base, in set order, with some values
    left out (those that were popped while the id was in no map).
   */
  lemma {:induction false} StreamFollowsSets(s: State, id: SubId)
    requires Reachable(s) && id in s.d.info
    ensures
      var i := s.d.info[id];
      i.base <= |ByKey(s.d.setLog, i.key)| && Sub(Values(s.d.streams.sent, id), ByKey(s.d.setLog, i.key)[i.base..])
  {
    ReachableStreams(s);
    ReachableInv(s);
    EnqueuedExactly(s, id);
    SentIsPopped(Wk(s), s.d.streams.sent, s.d.popped);
    SentChain(s.d, id, s.d.info[id]);
  }

  lemma {:induction false} SentChain(d: Data, id: SubId, i: Info)
    requires Sub(d.streams.sent, d.popped) && d.popped <= d.enqueued && d.pubLog <= d.setLog
    requires i.base <= |ByKey(d.pubLog, i.key)| && Values(d.enqueued, id) <= ByKey(d.pubLog, i.key)[i.base..]
    ensures i.base <= |ByKey(d.setLog, i.key)|
    ensures Sub(Values(d.streams.sent, id), ByKey(d.setLog, i.key)[i.base..])
  {
    SubValues(d.streams.sent, d.popped, id);
    ValuesPrefix(d.popped, d.enqueued, id);
    ByKeyPrefix(d.pubLog, d.setLog, i.key);
    SubPrefix(Values(d.streams.sent, id), Values(d.popped, id), ByKey(d.setLog, i.key)[i.base..]);
  }

  lemma {:induction false} SentIsPopped(w: WPc, sent: seq<Item>, popped: seq<Item>)
    requires Relayed(w, sent, popped)
    ensures Sub(sent, popped)
  {
    if Holding(w).Some? {
      SubPrefix(sent, popped[..|popped| - 1], popped);
    }
  }

  // ------------------------------------------------------------------ what is in a map

  predicate InMap(st: Streams, c: ConnId, id: SubId) {
    c in st.maps && id in st.maps[c]
  }

  predicate Registers(e: Event, c: ConnId, id: SubId) {
    e.Stream? && e.streamOp == Register(c, id)
  }

  predicate Removes(e: Event, c: ConnId, id: SubId) {
    e.Stream? && (e.streamOp == Erase(c, id) || e.streamOp == Clear(c))
  }

  /** The run registers the id for the session, and does not remove it later. */
  ghost predicate StaysRegistered(run: seq<Event>, c: ConnId, id: SubId) {
    exists i {:trigger run[i]} ::
      0 <= i < |run| && Registers(run[i], c, id) && forall j | i < j < |run| :: !Removes(run[j], c, id)
  }

  ghost predicate NeverRemoved(run: seq<Event>, c: ConnId, id: SubId) {
    forall j | 0 <= j < |run| :: !Removes(run[j], c, id)
  }

  lemma {:induction false} InMapAfter(s: State, e: Event, c: ConnId, id: SubId)
    requires Enabled(s, e)
    ensures InMap(Next(s, e).d.streams, c, id) <==>
              Registers(e, c, id) || (InMap(s.d.streams, c, id) && !Removes(e, c, id))
  {
    StreamsAfter(s, e);
  }

  lemma {:induction false} RegisteredRest(run: seq<Event>, c: ConnId, id: SubId)
    requires run != []
    ensures NeverRemoved(run, c, id) <==> !Removes(run[0], c, id) && NeverRemoved(run[1..], c, id)
    ensures StaysRegistered(run, c, id) <==>
              StaysRegistered(run[1..], c, id) || (Registers(run[0], c, id) && NeverRemoved(run[1..], c, id))
  {
    var rest := run[1..];
    assert forall j | 0 <= j < |rest| :: rest[j] == run[j + 1];
    if NeverRemoved(rest, c, id) {
      forall j | 0 < j < |run| ensures !Removes(run[j], c, id) {
        assert rest[j - 1] == run[j];
      }
    }
    if StaysRegistered(rest, c, id) {
      var i :| 0 <= i < |rest| && Registers(rest[i], c, id) && forall j | i < j < |rest| :: !Removes(rest[j], c, id);
      forall j | i + 1 < j < |run| ensures !Removes(run[j], c, id) {
        assert rest[j - 1] == run[j];
      }
      assert Registers(run[i + 1], c, id);
    }
    if StaysRegistered(run, c, id) {
      var i :| 0 <= i < |run| && Registers(run[i], c, id) && forall j | i < j < |run| :: !Removes(run[j], c, id);
      if i > 0 {
        assert Registers(rest[i - 1], c, id);
      }
    }
  }

  lemma {:induction false} InMapRun(s: State, run: seq<Event>, c: ConnId, id: SubId)
    requires ValidRun(s, run)
    ensures InMap(Exec(s, run).d.streams, c, id) <==>
              StaysRegistered(run, c, id) || (InMap(s.d.streams, c, id) && NeverRemoved(run, c, id))
    decreases |run|
  {
    if run != [] {
      InMapAfter(s, run[0], c, id);
      RegisteredRest(run, c, id);
      InMapRun(Next(s, run[0]), run[1..], c, id);
    }
  }

  /**
    Over every run: an id is in the map of its session if and only if the run registers it there
    and neither erases it nor clears the session afterwards.  Other ids play no part.
   */
  lemma {:induction false} InMapIff(run0: bool, run: seq<Event>, c: ConnId, id: SubId)
    requires ValidRun(Init(run0), run)
    ensures
      var maps := Exec(Init(run0), run).d.streams.maps;
      c in maps && id in maps[c] <==> StaysRegistered(run, c, id)
  {
    InMapRun(Init(run0), run, c, id);
  }

  lemma {:induction false} ClosedRunIff(s: State, run: seq<Event>, c: ConnId)
    requires ValidRun(s, run)
    ensures c in Exec(s, run).d.streams.closed <==>
              c in s.d.streams.closed || exists e :: e in run && e.Stream? && e.streamOp == Clear(c)
    decreases |run|
  {
    if run != [] {
      StreamsAfter(s, run[0]);
      ClosedRunIff(Next(s, run[0]), run[1..], c);
      assert run == [run[0]] + run[1..];
    }
  }

  /** And a session counts as cleaned up if and only if the run clears it. */
  lemma {:induction false} ClosedIff(run0: bool, run: seq<Event>, c: ConnId)
    requires ValidRun(Init(run0), run)
    ensures c in Exec(Init(run0), run).d.streams.closed <==>
              exists e :: e in run && e.Stream? && e.streamOp == Clear(c)
  {
    ClosedRunIff(Init(run0), run, c);
  }

  // ------------------------------------------------------------------ nothing lost

  /** The value in the worker's hand, if it is for this subscription. */
  function HeldFor(w: WPc, id: SubId): seq<Json> {
    match Holding(w)
    case Some(item) => if item.id == id then [item.value] else []
    case None => []
  }

  /** Everything popped for the id has been sent, or is in hand. */
  ghost predicate AllSent(w: WPc, sent: seq<Item>, popped: seq<Item>, id: SubId) {
    Values(sent, id) + HeldFor(w, id) == Values(popped, id)
  }

  /** Whenever the worker looks the id up in the run, it is in the map. */
  ghost predicate AlwaysFound(s: State, run: seq<Event>, id: SubId)
    requires ValidRun(s, run)
    decreases |run|
  {
    run == [] || (
      && (run[0].Work? && Wk(s).WLook? && Wk(s).item.id == id ==> InMap(s.d.streams, Wk(s).item.chan.conn, id))
      && AlwaysFound(Next(s, run[0]), run[1..], id))
  }

  lemma {:induction false} AllSentWork(w: WPc, d: Data, ch: Choice, id: SubId)
    requires WorkEnabled(w, d, ch) && AllSent(w, d.streams.sent, d.popped, id)
    requires w.WPop? && d.buffer[0].id == id ==> d.buffer[0].chan.kind == Grpc
    requires w.WLook? && w.item.id == id ==> InMap(d.streams, w.item.chan.conn, id)
    ensures
      var d' := WorkEffect(w, d, ch);
      AllSent(WorkPc(w, d), d'.streams.sent, d'.popped, id)
  {
    if w.WPop? {
      ValuesAppend(d.popped, d.buffer[0], id);
    } else if w.WStream? {
      ValuesAppend(d.streams.sent, w.item, id);
    } else if !w.WLook? {
      OtherWork(w, d, ch);
    }
  }

  lemma {:induction false} AllSentStep(s: State, e: Event, id: SubId)
    requires Inv(s) && Enabled(s, e) && AllSent(Wk(s), s.d.streams.sent, s.d.popped, id)
    requires id in s.d.info ==> s.d.info[id].chan.kind == Grpc
    requires e.Work? && Wk(s).WLook? && Wk(s).item.id == id ==> InMap(s.d.streams, Wk(s).item.chan.conn, id)
    ensures AllSent(Wk(Next(s, e)), Next(s, e).d.streams.sent, Next(s, e).d.popped, id)
  {
    if e.Work? {
      if Wk(s).WPop? {
        FrontKnown(s.d);
      }
      AllSentWork(Wk(s), s.d, e.choice, id);
      WorkedTo(s, e.choice);
    } else {
      StreamsAfter(s, e);
      assert s.d.streams.sent + [] == s.d.streams.sent;
      WorkerMoves(s, e);
      PoppedKept(s, e);
    }
  }

  /** The next item was enqueued for a subscription on its channel. */
  lemma {:induction false} FrontKnown(d: Data)
    requires Queued(d) && d.buffer != []
    ensures d.buffer[0].id in d.info && d.buffer[0].chan == d.info[d.buffer[0].id].chan
  {
    assert d.buffer[0] == d.enqueued[|d.popped|];
  }

  lemma {:induction false} AllSentRun(s: State, run: seq<Event>, id: SubId)
    requires Inv(s) && ValidRun(s, run) && AlwaysFound(s, run, id)
    requires AllSent(Wk(s), s.d.streams.sent, s.d.popped, id)
    requires id in Exec(s, run).d.info ==> Exec(s, run).d.info[id].chan.kind == Grpc
    ensures
      var s' := Exec(s, run);
      AllSent(Wk(s'), s'.d.streams.sent, s'.d.popped, id)
    decreases |run|
  {
    if run != [] {
      if id in s.d.info {
        RunInfoKept(s, run, id);
      }
      AllSentStep(s, run[0], id);
      StepInv(s, run[0]);
      AllSentRun(Next(s, run[0]), run[1..], id);
    }
  }

  /** A live gRPC subscription, and everything for it is delivered or skipped. */
  ghost predicate StreamSettled(s: State, id: SubId) {
    && id in s.d.info && s.d.info[id].chan.kind == Grpc && s.d.info[id].until.None?
    && s.d.buffer == [] && HeldFor(Wk(s), id) == []
    && Rw !in s.th.owner && Access !in s.th.owner
  }

  /**
    Nothing is lost on a stream: if the id was in its map whenever one of its items was looked
    up, then once no set is in flight, the buffer is empty and the worker has nothing in hand, a
    live gRPC subscription has been sent exactly the values set since its base, in set order.
   */
  lemma {:induction false} StreamDelivery(run0: bool, run: seq<Event>, id: SubId)
    requires ValidRun(Init(run0), run) && AlwaysFound(Init(run0), run, id)
    requires StreamSettled(Exec(Init(run0), run), id)
    ensures
      var d := Exec(Init(run0), run).d;
      var i := d.info[id];
      && i.base <= |ByKey(d.setLog, i.key)|
      && Values(d.streams.sent, id) == ByKey(d.setLog, i.key)[i.base..]
  {
    var s := Exec(Init(run0), run);
    InitInv(run0);
    RunInv(Init(run0), run);
    AllSentRun(Init(run0), run, id);
    SettledSent(s, id);
  }

  lemma {:induction false} SettledSent(s: State, id: SubId)
    requires Inv(s) && StreamSettled(s, id) && AllSent(Wk(s), s.d.streams.sent, s.d.popped, id)
    ensures
      var i := s.d.info[id];
      && i.base <= |ByKey(s.d.setLog, i.key)|
      && Values(s.d.streams.sent, id) == ByKey(s.d.setLog, i.key)[i.base..]
  {
    var d, i := s.d, s.d.info[id];
    assert d.popped == d.enqueued && d.setLog == d.pubLog;
    assert Served(ByKey(d.pubLog, i.key), i, id in Todo(s.th), Values(d.enqueued, id));
    assert Values(d.streams.sent, id) + [] == Values(d.streams.sent, id);
  }

  /** The worker's item was enqueued for its subscription, on that one's channel. */
  lemma {:induction false} HeldKnown(s: State)
    requires Inv(s) && StreamInv(s) && Holding(Wk(s)).Some?
    ensures
      var item := Holding(Wk(s)).value;
      item.id in s.d.info && item.chan == s.d.info[item.id].chan
  {
    var d := s.d;
    assert d.popped[|d.popped| - 1] == d.enqueued[|d.popped| - 1];
  }

  /** While an id stays in its map, every look-up of it succeeds. */
  lemma {:induction false} FoundWhileRegistered(s: State, run: seq<Event>, c: ConnId, id: SubId)
    requires Inv(s) && StreamInv(s) && ValidRun(s, run)
    requires InMap(s.d.streams, c, id) && NeverRemoved(run, c, id)
    requires id in s.d.info && s.d.info[id].chan.conn == c
    ensures AlwaysFound(s, run, id)
    decreases |run|
  {
    if run != [] {
      if Holding(Wk(s)).Some? {
        HeldKnown(s);
      }
      InMapAfter(s, run[0], c, id);
      RegisteredRest(run, c, id);
      InfoKept(s, run[0], id);
      StreamStep(s, run[0]);
      StepInv(s, run[0]);
      FoundWhileRegistered(Next(s, run[0]), run[1..], c, id);
    }
  }

  /**
    In terms of the session: an id that is in its map before any of its items is popped, and is
    neither erased nor cleared with its session, misses nothing.
   */
  lemma {:induction false} RegisteredHearsAll(s: State, run: seq<Event>, id: SubId)
    requires Reachable(s) && ValidRun(s, run) && id in s.d.info && s.d.info[id].chan.kind == Grpc
    requires var c := s.d.info[id].chan.conn; InMap(s.d.streams, c, id) && NeverRemoved(run, c, id)
    requires Values(s.d.popped, id) == [] && StreamSettled(Exec(s, run), id)
    ensures
      var d := Exec(s, run).d;
      var i := d.info[id];
      && i.base <= |ByKey(d.setLog, i.key)|
      && Values(d.streams.sent, id) == ByKey(d.setLog, i.key)[i.base..]
  {
    ReachableInv(s);
    ReachableStreams(s);
    NothingSentYet(Wk(s), s.d.streams.sent, s.d.popped, id);
    FoundWhileRegistered(s, run, s.d.info[id].chan.conn, id);
    RunInfoKept(s, run, id);
    AllSentRun(s, run, id);
    RunInv(s, run);
    SettledSent(Exec(s, run), id);
  }

  lemma {:induction false} NothingSentYet(w: WPc, sent: seq<Item>, popped: seq<Item>, id: SubId)
    requires Relayed(w, sent, popped) && Values(popped, id) == []
    ensures AllSent(w, sent, popped, id)
  {
    SentIsPopped(w, sent, popped);
    SubValues(sent, popped, id);
    if Holding(w).Some? {
      ValuesAppend(popped[..|popped| - 1], Holding(w).value, id);
      assert popped == popped[..|popped| - 1] + [Holding(w).value];
    }
  }

  // ------------------------------------------------------------------ after the cleanup

  /** The worker has looked up the stream of this session and not used it yet. */
  function Grip(w: WPc, c: ConnId): nat {
    if w.WStream? && w.item.chan.conn == c then 1 else 0
  }

  lemma {:induction false} GripAfter(s: State, e: Event, c: ConnId)
    requires Locks(s.th) && StreamInv(s) && Enabled(s, e) && c in s.d.streams.closed
    ensures c in Next(s, e).d.streams.closed
    ensures
      var before, after := SentTo(s.d.streams.sent, c), SentTo(Next(s, e).d.streams.sent, c);
      before <= after && |after| + Grip(Wk(Next(s, e)), c) <= |before| + Grip(Wk(s), c)
  {
    StreamsAfter(s, e);
    if e.Work? {
      WorkedTo(s, e.choice);
      if Wk(s).WStream? {
        SentAppend(s.d.streams.sent, Wk(s).item, c);
      } else {
        assert s.d.streams.sent + [] == s.d.streams.sent;
      }
    } else {
      assert s.d.streams.sent + [] == s.d.streams.sent;
      WorkerMoves(s, e);
    }
  }

  lemma {:induction false} GripRun(s: State, run: seq<Event>, c: ConnId)
    requires Inv(s) && StreamInv(s) && ValidRun(s, run) && c in s.d.streams.closed
    ensures
      var before, after := SentTo(s.d.streams.sent, c), SentTo(Exec(s, run).d.streams.sent, c);
      before <= after && |after| + Grip(Wk(Exec(s, run)), c) <= |before| + Grip(Wk(s), c)
    decreases |run|
  {
    if run != [] {
      GripAfter(s, run[0], c);
      StreamStep(s, run[0]);
      StepInv(s, run[0]);
      GripRun(Next(s, run[0]), run[1..], c);
    }
  }

  /**
    In the whole system, with its locks and all other threads: once a gRPC session has cleared
    its map, nothing more is sent on its stream, whatever ids are still in the table or the
    buffer, unless the worker had looked the stream up before; then at most one item.
   */
  lemma {:induction false} NothingSentAfterCleanup(s: State, s': State, c: ConnId)
    requires Reachable(s) && c in s.d.streams.closed && Reaches(s, s')
    ensures Grip(Wk(s), c) == 0 ==> SentTo(s'.d.streams.sent, c) == SentTo(s.d.streams.sent, c)
    ensures |SentTo(s'.d.streams.sent, c)| <= |SentTo(s.d.streams.sent, c)| + 1
  {
    ReachableInv(s);
    ReachableStreams(s);
    var run :| ValidRun(s, run) && Exec(s, run) == s';
    GripRun(s, run, c);
  }

  /** The exception is real: a worker that holds the stream in hand can always send. */
  lemma {:induction false} LateSend(s: State, c: ConnId, ch: Choice)
    requires Reachable(s) && Grip(Wk(s), c) == 1
    ensures Enabled(s, Work(ch))
    ensures SentTo(Next(s, Work(ch)).d.streams.sent, c) == SentTo(s.d.streams.sent, c) + [Wk(s).item]
  {
    ReachableInv(s);
    WorkedTo(s, ch);
    SentAppend(s.d.streams.sent, Wk(s).item, c);
  }
}
