/**
  Runs that show the assumptions of the pipeline's theorems can be met: a subscriber to whom any
  list of changes is delivered in full, and a gRPC session whose stream is in the worker's hand
  when it is cleaned up.
 */
module PipelineWitnesses {
  import opened Basics
  import opened Subscriptions
  import opened Pipeline
  import opened PipelineTheorems
  import opened PipelineScenarios
  import Q = WriteQueue
  import St = PipelineStreams

  // ------------------------------------------------------------------ everything delivered

  /** A session with nothing to send and nothing under way. */
  ghost predicate Quiet(q: Q.Session<Msg>) {
    q.queue == [] && q.buf == [] && q.outstanding == 0 && q.handlers == 0 && !q.broken
  }

  /** One live subscription to `key`, on an open connection, and nothing to deliver. */
  ghost predicate CalmData(d: Data, key: Key) {
    && d.subs == map[key := map[id1 := chan1]] && d.info == map[id1 := Info(key, chan1, 0, None)]
    && d.net.conns == map[1 := WsPlain] && d.net.known == map[1 := WsPlain]
    && 1 in d.net.sessions && Quiet(d.net.sessions[1])
    && d.buffer == [] && d.marks.started && d.marks.threadRun
  }

  ghost predicate Calm(s: State, key: Key) {
    Threaded(s.th, WCheck, Idle, map[]) && CalmData(s.d, key)
  }

  lemma {:induction false} CalmStart(run0: bool, key: Key) returns (s: State)
    ensures Reaches(Init(run0), s) && Calm(s, key) && s.d.setLog == []
  {
    var s0, ch := Init(run0), Choice(map[], id1, 1);
    s := Started(run0);
    s := RunOp(s0, s, WCheck, OpOpen(WsPlain), ch);
    s := RunOp(s0, s, WCheck, OpSubscribe(key, chan1), ch);
  }

  /** A set on another key: nobody is notified. */
  lemma {:induction false} SetUnheard(s0: State, s: State, key: Key, ch: Change) returns (s': State)
    requires Reaches(s0, s) && Calm(s, key) && ch.key != key
    ensures Reaches(s0, s') && Calm(s', key) && s'.d.setLog == s.d.setLog + [ch]
  {
    var none: map<Lock, Tid> := map[];
    assert none[Rw := Client(0)][Access := Client(0)] == map[Rw := Client(0), Access := Client(0)];
    s' := RunSet(s0, s, WCheck, none, ch);
    s' := RunEndPublish(s0, s', WCheck, ch);
    s' := RunEndSet(s0, s', WCheck);
  }

  /** A set on the key puts one notification into the buffer. */
  lemma {:induction false} SetHeard(s0: State, s: State, key: Key, ch: Change) returns (s': State)
    requires Reaches(s0, s) && Calm(s, key) && ch.key == key
    ensures Reaches(s0, s') && Threaded(s'.th, WCheck, Idle, map[])
    ensures s'.d.buffer == [Item(id1, chan1, ch.datatyp, ch.value)] && CalmData(s'.d.(buffer := []), key)
    ensures s'.d.setLog == s.d.setLog + [ch]
  {
    var none: map<Lock, Tid> := map[];
    assert none[Rw := Client(0)][Access := Client(0)] == map[Rw := Client(0), Access := Client(0)];
    s' := RunSet(s0, s, WCheck, none, ch);
    assert SubsAt(s'.d.subs, ch.key).Keys == {id1};
    s' := RunNotify(s0, s', WCheck, ch, id1, chan1);
  }

  /** The worker finds the buffer non-empty and takes subMutex. */
  lemma {:induction false} TakeBuffer(s0: State, s: State) returns (s': State)
    requires Reaches(s0, s) && Threaded(s.th, WCheck, Idle, map[]) && s.d.marks.threadRun && s.d.buffer != []
    ensures Reaches(s0, s') && Threaded(s'.th, WPop, Idle, map[Sub := Worker])
    ensures s'.d == s.d.(marks := s.d.marks.(checkedAt := |s.d.enqueued|))
  {
    s' := CheckAndTest(s0, s, WWantPop);
    s' := TakeSub(s0, s', WWantPop, WPop);
  }

  /** The worker takes the notification out of the buffer. */
  lemma {:induction false} Fetch(s0: State, s: State, key: Key, item: Item) returns (s': State)
    requires Reaches(s0, s) && Threaded(s.th, WCheck, Idle, map[])
    requires s.d.buffer == [item] && CalmData(s.d.(buffer := []), key) && item.chan == chan1
    ensures Reaches(s0, s') && Threaded(s'.th, WWantConn(item, WsPlain), Idle, map[Sub := Worker])
    ensures CalmData(s'.d, key) && s'.d.setLog == s.d.setLog
  {
    s' := TakeBuffer(s0, s);
    s' := PopOne(s0, s', item);
  }

  const SUB: map<Lock, Tid> := map[Sub := Worker]
  const SUB_CONN: map<Lock, Tid> := map[Sub := Worker, Conn(WsPlain) := Worker]
  const SUB_CONN_QUEUE: map<Lock, Tid> := map[Sub := Worker, Conn(WsPlain) := Worker, Queue(1) := Worker]

  /** It takes the lock of the first connection map, */
  lemma {:induction false} TakeConn(s0: State, s: State, item: Item) returns (s': State)
    requires Reaches(s0, s) && Threaded(s.th, WWantConn(item, WsPlain), Idle, SUB)
    ensures Reaches(s0, s') && Threaded(s'.th, WConn(item, WsPlain), Idle, SUB_CONN) && s'.d == s.d
  {
    s' := WorkerTakes(s0, s, WWantConn(item, WsPlain), Idle, SUB, Conn(WsPlain));
    assert SUB[Conn(WsPlain) := Worker] == SUB_CONN;
  }

  /** finds the connection there, */
  lemma {:induction false} FindConn(s0: State, s: State, item: Item, owner: map<Lock, Tid>) returns (s': State)
    requires Reaches(s0, s) && Threaded(s.th, WConn(item, WsPlain), Idle, owner)
    requires Hand(owner, Worker, WHolds(WConn(item, WsPlain)), WHolds(WWantQueue(item, WsPlain))) == owner
    requires s.d.net.conns == map[1 := WsPlain] && item.chan == chan1
    ensures Reaches(s0, s') && Threaded(s'.th, WWantQueue(item, WsPlain), Idle, owner) && s'.d == s.d
  {
    s' := WorkerStep(s0, s, WConn(item, WsPlain), Idle, owner, Work(NoChoice), WWantQueue(item, WsPlain), s.d, owner);
  }

  /** takes the lock of the session's queue, */
  lemma {:induction false} TakeQueue(s0: State, s: State, item: Item) returns (s': State)
    requires Reaches(s0, s) && Threaded(s.th, WWantQueue(item, WsPlain), Idle, SUB_CONN) && item.chan == chan1
    ensures Reaches(s0, s') && Threaded(s'.th, WQueue(item, WsPlain), Idle, SUB_CONN_QUEUE) && s'.d == s.d
  {
    s' := WorkerTakes(s0, s, WWantQueue(item, WsPlain), Idle, SUB_CONN, Queue(1));
    assert SUB_CONN[Queue(1) := Worker] == SUB_CONN_QUEUE;
  }

  function WithNote(d: Data, item: Item): Data
    requires 1 in d.net.sessions
  {
    d.(net := SetSession(d.net, 1, Q.Write(d.net.sessions[1], Note(item))))
  }

  lemma {:induction false} NoteStep(s: State, item: Item)
    requires PcOf(s, Worker) == At(WQueue(item, WsPlain)) && item.chan == chan1 && 1 in s.d.net.sessions
    ensures Enabled(s, Work(NoChoice)) && NextPc(s, Work(NoChoice)) == At(WRelease)
    ensures Effect(s, Work(NoChoice)) == WithNote(s.d, item)
  {
  }

  /** and writes the notification. */
  lemma {:induction false} WriteNote(s0: State, s: State, item: Item, owner: map<Lock, Tid>, owner': map<Lock, Tid>)
    returns (s': State)
    requires Reaches(s0, s) && Threaded(s.th, WQueue(item, WsPlain), Idle, owner)
    requires owner' == Hand(owner, Worker, WHolds(WQueue(item, WsPlain)), WHolds(WRelease))
    requires item.chan == chan1 && 1 in s.d.net.sessions
    ensures Reaches(s0, s') && Threaded(s'.th, WRelease, Idle, owner') && s'.d == WithNote(s.d, item)
  {
    NoteStep(s, item);
    s' := WorkerStep(s0, s, WQueue(item, WsPlain), Idle, owner, Work(NoChoice), WRelease, WithNote(s.d, item), owner');
  }

  /** The locks kept while the connection is found, and those left once the notification is written. */
  lemma {:induction false} SendLocks(item: Item)
    requires item.chan == chan1
    ensures Hand(SUB_CONN, Worker, WHolds(WConn(item, WsPlain)), WHolds(WWantQueue(item, WsPlain))) == SUB_CONN
    ensures Hand(SUB_CONN_QUEUE, Worker, WHolds(WQueue(item, WsPlain)), WHolds(WRelease)) == SUB
  {
  }

  lemma {:induction false} FindAndWrite(s0: State, s: State, item: Item) returns (s': State)
    requires Reaches(s0, s) && Threaded(s.th, WWantConn(item, WsPlain), Idle, SUB)
    requires s.d.net.conns == map[1 := WsPlain] && 1 in s.d.net.sessions && item.chan == chan1
    ensures Reaches(s0, s') && Threaded(s'.th, WRelease, Idle, SUB) && s'.d == WithNote(s.d, item)
  {
    s' := TakeConn(s0, s, item);
    SendLocks(item);
    s' := FindConn(s0, s', item, SUB_CONN);
    s' := TakeQueue(s0, s', item);
    s' := WriteNote(s0, s', item, SUB_CONN_QUEUE, SUB);
  }

  /** The worker releases subMutex and starts over. */
  lemma {:induction false} NextRound(s0: State, s: State) returns (s': State)
    requires Reaches(s0, s) && Threaded(s.th, WRelease, Idle, map[Sub := Worker])
    ensures Reaches(s0, s') && Threaded(s'.th, WCheck, Idle, map[]) && s'.d == s.d
  {
    s' := WorkerStep(s0, s, WRelease, Idle, map[Sub := Worker], Work(NoChoice), WCheck, s.d, map[]);
  }

  /** The write completes, */
  lemma {:induction false} WriteDone(s0: State, s: State) returns (s': State)
    requires Reaches(s0, s) && Threaded(s.th, WCheck, Idle, map[])
    requires 1 in s.d.net.sessions && s.d.net.sessions[1].outstanding > 0
    ensures Reaches(s0, s') && Threaded(s'.th, WCheck, OpWant(OpComplete(1)), map[])
    ensures s'.d == s.d.(net := SetSession(s.d.net, 1, Q.Consume(s.d.net.sessions[1])))
  {
    s' := ClientStep(s0, s, WCheck, Idle, map[], IoDone(0, 1), OpWant(OpComplete(1)),
                     s.d.(net := SetSession(s.d.net, 1, Q.Consume(s.d.net.sessions[1]))), map[]);
  }

  /** and its completion handler pops the queue. */
  lemma {:induction false} HandlerRuns(s0: State, s: State) returns (s': State)
    requires Reaches(s0, s) && Threaded(s.th, WCheck, OpWant(OpComplete(1)), map[])
    requires 1 in s.d.net.sessions && s.d.net.sessions[1].handlers > 0 && s.d.net.sessions[1].queue != []
    ensures Reaches(s0, s') && Threaded(s'.th, WCheck, Idle, map[])
    ensures s'.d == s.d.(net := SetSession(s.d.net, 1, Q.Complete(s.d.net.sessions[1])))
  {
    s' := RunEnter(s0, s, WCheck, OpComplete(1));
    s' := RunFinish(s0, s', WCheck, OpComplete(1), NoChoice);
  }

  /** A quiet session is quiet again after one message. */
  lemma {:induction false} QuietAgain(q: Q.Session<Msg>, m: Msg)
    requires Quiet(q)
    ensures
      var w := Q.Write(q, m);
      && w.outstanding == 1
      && var c := Q.Consume(w);
      && c.handlers == 1 && c.queue == [m] && Quiet(Q.Complete(c))
  {
  }

  lemma {:induction false} WriteCompletes(s0: State, s: State, key: Key, d: Data, item: Item) returns (s': State)
    requires Reaches(s0, s) && Threaded(s.th, WCheck, Idle, map[]) && CalmData(d, key) && s.d == WithNote(d, item)
    ensures Reaches(s0, s') && Calm(s', key) && s'.d.setLog == d.setLog
  {
    QuietAgain(d.net.sessions[1], Note(item));
    s' := WriteDone(s0, s);
    s' := HandlerRuns(s0, s');
  }

  /** A change on the subscribed key, set and delivered. */
  lemma {:induction false} DeliverHeard(s0: State, s: State, key: Key, ch: Change) returns (s': State)
    requires Reaches(s0, s) && Calm(s, key) && ch.key == key
    ensures Reaches(s0, s') && Calm(s', key) && s'.d.setLog == s.d.setLog + [ch]
  {
    var item := Item(id1, chan1, ch.datatyp, ch.value);
    s' := SetHeard(s0, s, key, ch);
    s' := Fetch(s0, s', key, item);
    s' := SendFetched(s0, s', key, item);
  }

  lemma {:induction false} SendFetched(s0: State, s: State, key: Key, item: Item) returns (s': State)
    requires Reaches(s0, s) && Threaded(s.th, WWantConn(item, WsPlain), Idle, SUB)
    requires CalmData(s.d, key) && item.chan == chan1
    ensures Reaches(s0, s') && Calm(s', key) && s'.d.setLog == s.d.setLog
  {
    s' := FindAndWrite(s0, s, item);
    s' := NextRound(s0, s');
    s' := WriteCompletes(s0, s', key, s.d, item);
  }

  lemma {:induction false} DeliverOne(s0: State, s: State, key: Key, ch: Change) returns (s': State)
    requires Reaches(s0, s) && Calm(s, key)
    ensures Reaches(s0, s') && Calm(s', key) && s'.d.setLog == s.d.setLog + [ch]
  {
    if ch.key == key {
      s' := DeliverHeard(s0, s, key, ch);
    } else {
      s' := SetUnheard(s0, s, key, ch);
    }
  }

  /** Any further list of changes, after those of `done`. */
  lemma {:induction false} DeliverMore(s0: State, s: State, key: Key, done: seq<Change>, log: seq<Change>)
    returns (s': State)
    requires Reaches(s0, s) && Calm(s, key) && s.d.setLog == done
    ensures Reaches(s0, s') && Calm(s', key) && s'.d.setLog == done + log
    decreases |log|
  {
    NextChange(done, log);
    if log == [] {
      s' := s;
    } else {
      s' := DeliverOne(s0, s, key, log[0]);
      s' := DeliverMore(s0, s', key, done + [log[0]], log[1..]);
    }
  }

  lemma {:induction false} NextChange(done: seq<Change>, log: seq<Change>)
    ensures if log == [] then done + log == done else (done + [log[0]]) + log[1..] == done + log
  {
  }

  /**
    For every list of changes and every key there is a run, from every start-up, that sets
    exactly these changes and delivers to a subscriber of the key every value set on it.
   */
  lemma {:induction false} EveryLogDelivered(run0: bool, key: Key, log: seq<Change>) returns (s: State)
    ensures Reaches(Init(run0), s) && Settled(s, id1) && s.d.setLog == log
    ensures s.d.info[id1].key == key && s.d.info[id1].chan == chan1
    ensures Heard(s.d.net.sessions[chan1.conn].wire, id1) == ByKey(log, key)
  {
    s := CalmStart(run0, key);
    s := DeliverMore(Init(run0), s, key, [], log);
    assert [] + log == log;
    CalmSettled(s, key);
    assert Reachable(s);
    QuiescentDelivery(s, id1);
    assert ByKey(log, key)[0..] == ByKey(log, key);
  }

  lemma {:induction false} CalmSettled(s: State, key: Key)
    requires Calm(s, key)
    ensures Settled(s, id1) && s.d.info[id1] == Info(key, chan1, 0, None)
  {
  }

  // ------------------------------------------------------------------ the late send

  const streamChan: Channel := Channel(7, Grpc)

  /** A gRPC client subscribes, is notified once, and the worker has not moved. */
  lemma {:induction false} StreamNotified(run0: bool, ch: Change) returns (s: State)
    ensures Reaches(Init(run0), s) && Threaded(s.th, WCheck, Idle, map[])
    ensures s.d.buffer == [Item(id1, streamChan, ch.datatyp, ch.value)] && s.d.streams.maps == map[7 := {id1}]
    ensures s.d.marks.started && s.d.marks.threadRun && s.d.streams.sent == []
  {
    s := StreamSubscribed(run0, ch.key);
    var none: map<Lock, Tid> := map[];
    assert none[Rw := Client(0)][Access := Client(0)] == map[Rw := Client(0), Access := Client(0)];
    s := RunSet(Init(run0), s, WCheck, none, ch);
    assert SubsAt(s.d.subs, ch.key).Keys == {id1};
    s := RunNotify(Init(run0), s, WCheck, ch, id1, streamChan);
  }

  lemma {:induction false} StreamSubscribed(run0: bool, key: Key) returns (s: State)
    ensures Reaches(Init(run0), s) && Threaded(s.th, WCheck, Idle, map[])
    ensures s.d.subs == map[key := map[id1 := streamChan]] && s.d.streams == Streams(map[7 := {id1}], {}, [])
    ensures s.d.marks.started && s.d.marks.threadRun && s.d.buffer == []
  {
    var s0 := Init(run0);
    s := Started(run0);
    s := RunOp(s0, s, WCheck, OpSubscribe(key, streamChan), Choice(map[], id1, 0));
    var d' := s.d.(streams := Streams(map[7 := {id1}], {}, []));
    assert {} + {id1} == {id1};
    s := ClientStep(s0, s, WCheck, Idle, map[], Stream(0, Register(7, id1)), Idle, d', map[]);
  }

  /** The worker pops the notification and finds its stream. */
  lemma {:induction false} StreamInHand(s0: State, s: State, item: Item) returns (s': State)
    requires Reaches(s0, s) && Threaded(s.th, WCheck, Idle, map[]) && s.d.marks.started && s.d.marks.threadRun
    requires s.d.buffer == [item] && item.chan == streamChan && item.id in StreamIds(s.d.streams, 7)
    ensures Reaches(s0, s') && Threaded(s'.th, WStream(item), Idle, SUB)
    ensures s'.d.streams == s.d.streams && s'.d.marks.started
  {
    s' := TakeBuffer(s0, s);
    s' := PopStream(s0, s', item);
    s' := LookStream(s0, s', item);
  }

  lemma {:induction false} LookStream(s0: State, s: State, item: Item) returns (s': State)
    requires Reaches(s0, s) && Threaded(s.th, WLook(item), Idle, SUB)
    requires item.chan == streamChan && item.id in StreamIds(s.d.streams, 7)
    ensures Reaches(s0, s') && Threaded(s'.th, WStream(item), Idle, SUB) && s'.d == s.d
  {
    s' := WorkerStep(s0, s, WLook(item), Idle, SUB, Work(NoChoice), WStream(item), s.d, SUB);
  }

  lemma {:induction false} PopStream(s0: State, s: State, item: Item) returns (s': State)
    requires Reaches(s0, s) && Threaded(s.th, WPop, Idle, SUB)
    requires s.d.buffer == [item] && item.chan == streamChan
    ensures Reaches(s0, s') && Threaded(s'.th, WLook(item), Idle, SUB)
    ensures s'.d == s.d.(buffer := [], popped := s.d.popped + [item])
  {
    s' := WorkerStep(s0, s, WPop, Idle, SUB, Work(NoChoice), WLook(item),
                     s.d.(buffer := [], popped := s.d.popped + [item]), SUB);
  }

  /** The session's cleanup clears the map, taking no lock, while the worker holds the stream. */
  lemma {:induction false} ClearNow(s0: State, s: State, item: Item) returns (s': State)
    requires Reaches(s0, s) && Threaded(s.th, WStream(item), Idle, SUB) && s.d.marks.started
    ensures Reaches(s0, s') && Threaded(s'.th, WStream(item), Idle, SUB)
    ensures s'.d.streams == StreamEffect(s.d.streams, Clear(7))
  {
    var d' := s.d.(streams := StreamEffect(s.d.streams, Clear(7)));
    s' := ClientStep(s0, s, WStream(item), Idle, SUB, Stream(0, Clear(7)), Idle, d', SUB);
  }

  /**
    The late send happens in the whole system: from every start-up there is a run after which a
    gRPC session is cleaned up, nothing has been sent on its stream, and the worker sends next.
   */
  lemma {:induction false} LateSendReachable(run0: bool, ch: Change) returns (s: State)
    ensures Reaches(Init(run0), s) && 7 in s.d.streams.closed && s.d.streams.sent == []
    ensures St.Grip(Wk(s), 7) == 1 && Enabled(s, Work(NoChoice))
    ensures St.SentTo(Next(s, Work(NoChoice)).d.streams.sent, 7) == [Item(id1, streamChan, ch.datatyp, ch.value)]
  {
    var item := Item(id1, streamChan, ch.datatyp, ch.value);
    s := StreamNotified(run0, ch);
    s := StreamInHand(Init(run0), s, item);
    s := ClearNow(Init(run0), s, item);
    assert Reachable(s);
    St.LateSend(s, 7, NoChoice);
  }
}
