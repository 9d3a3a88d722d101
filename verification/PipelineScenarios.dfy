/**
  Runs that show the departures of the pipeline from its intent are real: the deadlock after a
  failed send, the notification that stays behind because the wait has no predicate, and the
  worker that ends before it starts.
 */
module PipelineScenarios {
  import opened Basics
  import opened Subscriptions
  import opened Pipeline
  import opened PipelineInvariant
  import opened PipelineDelivery
  import opened PipelineTheorems
  import opened PipelineLocks

  lemma {:induction false} ReachSelf(s: State)
    ensures Reaches(s, s)
  {
    assert ValidRun(s, []) && Exec(s, []) == s;
  }

  lemma {:induction false} RunConcat(s: State, a: seq<Event>, b: seq<Event>)
    requires ValidRun(s, a) && ValidRun(Exec(s, a), b)
    ensures ValidRun(s, a + b) && Exec(s, a + b) == Exec(Exec(s, a), b)
    decreases |a|
  {
    if a == [] {
      assert a + b == b;
    } else {
      var ab := a + b;
      assert ab[0] == a[0] && ab[1..] == a[1..] + b;
      RunConcat(Next(s, a[0]), a[1..], b);
      assert ValidRun(Next(s, ab[0]), ab[1..]);
    }
  }

  lemma {:induction false} ReachStep(s: State, s1: State, e: Event)
    requires Reaches(s, s1) && Enabled(s1, e)
    ensures Reaches(s, Next(s1, e))
  {
    var run :| ValidRun(s, run) && Exec(s, run) == s1;
    assert ValidRun(Next(s1, e), []) && Exec(Next(s1, e), []) == Next(s1, e);
    assert [e][1..] == [];
    assert ValidRun(s1, [e]) && Exec(s1, [e]) == Next(s1, e);
    RunConcat(s, run, [e]);
  }

  const NoChoice := Choice(map[], Uuid(0), 0)

  /** Only the listed threads are away from Idle, and each lock owner is known. */
  ghost predicate Threaded(th: Threads, w: WPc, c: Pc, owner: map<Lock, Tid>) {
    && PcIn(th, Worker) == At(w) && PcIn(th, Client(0)) == c
    && th.owner == owner && HeldBy(th, Worker) == WHolds(w) && HeldBy(th, Client(0)) == Holds(c)
  }

  lemma {:induction false} NextIsMove(s: State, e: Event)
    requires Enabled(s, e) && PcOf(s, Worker) != At(WWaiting)
    ensures Next(s, e) == State(Move(s.th, Actor(e), NextPc(s, e)), Effect(s, e))
  {
  }

  lemma {:induction false} ThreadedMove(
      th: Threads, w: WPc, c: Pc, owner: map<Lock, Tid>, t: Tid, to: Pc, owner': map<Lock, Tid>)
    requires Threaded(th, w, c, owner) && (t == Worker || t == Client(0))
    requires t == Worker ==> to.At?
    requires owner' == Hand(owner, t, if t == Worker then WHolds(w) else Holds(c), Holds(to))
    ensures Threaded(Move(th, t, to), if t == Worker then to.w else w, if t == Worker then c else to, owner')
  {
  }

  /** A step of client 0 whose effect, target and locks are known. */
  lemma {:induction false} ClientStep(
      s0: State, s: State, w: WPc, c: Pc, owner: map<Lock, Tid>, e: Event, to: Pc, d': Data, owner': map<Lock, Tid>)
    returns (s': State)
    requires Reaches(s0, s) && Threaded(s.th, w, c, owner) && w != WWaiting
    requires Enabled(s, e) && Actor(e) == Client(0) && NextPc(s, e) == to && Effect(s, e) == d'
    requires owner' == Hand(owner, Client(0), Holds(c), Holds(to))
    ensures Reaches(s0, s') && Threaded(s'.th, w, to, owner') && s'.d == d'
  {
    s' := Next(s, e);
    ReachStep(s0, s, e);
    NextIsMove(s, e);
    ThreadedMove(s.th, w, c, owner, Client(0), to, owner');
  }

  /** A step of the worker whose effect, target and locks are known. */
  lemma {:induction false} WorkerStep(
      s0: State, s: State, w: WPc, c: Pc, owner: map<Lock, Tid>, e: Event, to: WPc, d': Data, owner': map<Lock, Tid>)
    returns (s': State)
    requires Reaches(s0, s) && Threaded(s.th, w, c, owner) && w != WWaiting
    requires Enabled(s, e) && Actor(e) == Worker && NextPc(s, e) == At(to) && Effect(s, e) == d'
    requires owner' == Hand(owner, Worker, WHolds(w), WHolds(to))
    ensures Reaches(s0, s') && Threaded(s'.th, to, c, owner') && s'.d == d'
  {
    s' := Next(s, e);
    ReachStep(s0, s, e);
    NextIsMove(s, e);
    ThreadedMove(s.th, w, c, owner, Worker, At(to), owner');
  }

  /** Client 0 takes a free lock (other than accessMutex in a publication). */
  lemma {:induction false} ClientTakes(s0: State, s: State, w: WPc, c: Pc, owner: map<Lock, Tid>, l: Lock, to: Pc)
    returns (s': State)
    requires Reaches(s0, s) && Threaded(s.th, w, c, owner) && w != WWaiting
    requires Wants(c) == Some(l) && l !in owner && !c.SetWrote? && to == TakenPc(s.d.subs, c)
    requires Hand(owner, Client(0), Holds(c), Holds(to)) == owner[l := Client(0)]
    ensures Reaches(s0, s') && Threaded(s'.th, w, to, owner[l := Client(0)]) && s'.d == s.d
  {
    s' := ClientStep(s0, s, w, c, owner, Acquire(Client(0)), to, s.d, owner[l := Client(0)]);
  }

  /** The worker takes a free lock. */
  lemma {:induction false} WorkerTakes(s0: State, s: State, w: WPc, c: Pc, owner: map<Lock, Tid>, l: Lock)
    returns (s': State)
    requires Reaches(s0, s) && Threaded(s.th, w, c, owner) && WWants(w) == Some(l) && l !in owner
    requires WHolds(WTaken(w)) == WHolds(w) + {l}
    requires forall k | k in WHolds(w) :: k in owner && owner[k] == Worker
    ensures Reaches(s0, s') && Threaded(s'.th, WTaken(w), c, owner[l := Worker]) && s'.d == s.d
  {
    s' := WorkerStep(s0, s, w, c, owner, Acquire(Worker), WTaken(w), s.d, owner[l := Worker]);
  }

  /** One uncontended critical section of client 0. */
  lemma {:induction false} RunOp(s0: State, s: State, w: WPc, op: Op, ch: Choice) returns (s': State)
    requires Reaches(s0, s) && Threaded(s.th, w, Idle, map[]) && !op.OpStop? && w != WWaiting && s.d.marks.started
    requires OpBeginAllowed(s.d.net, op) && OpAllowed(s.d, op, ch)
    ensures Reaches(s0, s') && Threaded(s'.th, w, Idle, map[]) && s'.d == OpEffect(s.d, op, ch)
  {
    s' := RunBegin(s0, s, w, op);
    s' := RunEnter(s0, s', w, op);
    s' := RunFinish(s0, s', w, op, ch);
  }

  lemma {:induction false} RunEnter(s0: State, s: State, w: WPc, op: Op) returns (s': State)
    requires Reaches(s0, s) && Threaded(s.th, w, OpWant(op), map[]) && w != WWaiting
    ensures Reaches(s0, s') && Threaded(s'.th, w, OpHold(op), map[][LockOf(op) := Client(0)]) && s'.d == s.d
  {
    s' := ClientTakes(s0, s, w, OpWant(op), map[], LockOf(op), OpHold(op));
  }

  lemma {:induction false} RunBegin(s0: State, s: State, w: WPc, op: Op) returns (s': State)
    requires Reaches(s0, s) && Threaded(s.th, w, Idle, map[]) && w != WWaiting && s.d.marks.started
    requires OpBeginAllowed(s.d.net, op)
    ensures Reaches(s0, s') && Threaded(s'.th, w, OpWant(op), map[]) && s'.d == s.d
  {
    s' := ClientStep(s0, s, w, Idle, map[], BeginOp(0, op), OpWant(op), s.d, map[]);
  }

  lemma {:induction false} RunFinish(s0: State, s: State, w: WPc, op: Op, ch: Choice) returns (s': State)
    requires Reaches(s0, s) && Threaded(s.th, w, OpHold(op), map[][LockOf(op) := Client(0)])
    requires !op.OpStop? && w != WWaiting
    requires OpAllowed(s.d, op, ch)
    ensures Reaches(s0, s') && Threaded(s'.th, w, Idle, map[]) && s'.d == OpEffect(s.d, op, ch)
  {
    s' := ClientStep(s0, s, w, OpHold(op), map[][LockOf(op) := Client(0)], Finish(0, ch), Idle,
                     OpEffect(s.d, op, ch), map[]);
  }

  function Written(d: Data, ch: Change): Data {
    d.(store := d.store[ch.key := ch.value], setLog := d.setLog + [ch])
  }

  function Logged(d: Data, ch: Change): Data {
    Written(d, ch).(pubLog := d.pubLog + [ch])
  }

  lemma {:induction false} RunSetHold(
      s0: State, s: State, w: WPc, owner: map<Lock, Tid>, ch: Change) returns (s': State)
    requires Reaches(s0, s) && Threaded(s.th, w, Idle, owner) && w != WWaiting && s.d.marks.started && Rw !in owner
    ensures Reaches(s0, s') && s'.d == s.d && Threaded(s'.th, w, SetHold(ch), owner[Rw := Client(0)])
  {
    s' := ClientStep(s0, s, w, Idle, owner, BeginSet(0, ch), SetWant(ch), s.d, owner);
    s' := RunTakeRw(s0, s', w, owner, ch);
  }

  lemma {:induction false} RunTakeRw(s0: State, s: State, w: WPc, owner: map<Lock, Tid>, ch: Change) returns (s': State)
    requires Reaches(s0, s) && Threaded(s.th, w, SetWant(ch), owner) && w != WWaiting && Rw !in owner
    ensures Reaches(s0, s') && s'.d == s.d && Threaded(s'.th, w, SetHold(ch), owner[Rw := Client(0)])
  {
    s' := ClientStep(s0, s, w, SetWant(ch), owner, Acquire(Client(0)), SetHold(ch), s.d, owner[Rw := Client(0)]);
  }

  /** Client 0 sets a signal up to the point where its publication is due. */
  lemma {:induction false} RunSet(s0: State, s: State, w: WPc, owner: map<Lock, Tid>, ch: Change) returns (s': State)
    requires Reaches(s0, s) && Threaded(s.th, w, Idle, owner) && w != WWaiting && s.d.marks.started
    requires Rw !in owner && Access !in owner
    ensures Reaches(s0, s') && s'.d == Logged(s.d, ch)
    ensures Threaded(s'.th, w, PubNext(ch, SubsAt(s.d.subs, ch.key).Keys), owner[Rw := Client(0)][Access := Client(0)])
  {
    var o1 := owner[Rw := Client(0)];
    s' := RunSetHold(s0, s, w, owner, ch);
    s' := RunWrite(s0, s', w, o1, ch);
    s' := RunStartPublish(s0, s', w, o1, ch);
  }

  lemma {:induction false} RunWrite(s0: State, s: State, w: WPc, o1: map<Lock, Tid>, ch: Change) returns (s': State)
    requires Reaches(s0, s) && Threaded(s.th, w, SetHold(ch), o1) && w != WWaiting && Rw in o1 && o1[Rw] == Client(0)
    ensures Reaches(s0, s') && s'.d == Written(s.d, ch) && Threaded(s'.th, w, SetWrote(ch), o1)
  {
    assert Hand(o1, Client(0), {Rw}, {Rw}) == o1;
    s' := ClientStep(s0, s, w, SetHold(ch), o1, WriteTree(0), SetWrote(ch), Written(s.d, ch), o1);
  }

  lemma {:induction false} RunStartPublish(
      s0: State, s: State, w: WPc, o1: map<Lock, Tid>, ch: Change) returns (s': State)
    requires Reaches(s0, s) && Threaded(s.th, w, SetWrote(ch), o1) && w != WWaiting
    requires Access !in o1 && Rw in o1 && o1[Rw] == Client(0)
    ensures Reaches(s0, s') && s'.d == s.d.(pubLog := s.d.pubLog + [ch])
    ensures Threaded(s'.th, w, PubNext(ch, SubsAt(s.d.subs, ch.key).Keys), o1[Access := Client(0)])
  {
    s' := ClientStep(s0, s, w, SetWrote(ch), o1, Acquire(Client(0)), PubNext(ch, SubsAt(s.d.subs, ch.key).Keys),
                     s.d.(pubLog := s.d.pubLog + [ch]), o1[Access := Client(0)]);
  }

  /** Client 0 notifies the single subscriber of its publication and finishes the set. */
  lemma {:induction false} RunNotify(
      s0: State, s: State, w: WPc, ch: Change, id: SubId, chan: Channel) returns (s': State)
    requires Reaches(s0, s) && w != WWaiting
    requires Threaded(s.th, w, PubNext(ch, {id}), map[Rw := Client(0), Access := Client(0)])
    requires ch.key in s.d.subs && s.d.subs[ch.key] == map[id := chan]
    ensures Reaches(s0, s') && Threaded(s'.th, w, Idle, map[])
    ensures
      var item := Item(id, chan, ch.datatyp, ch.value);
      s'.d == s.d.(buffer := s.d.buffer + [item], enqueued := s.d.enqueued + [item])
  {
    s' := RunPush(s0, s, w, ch, id, chan);
    s' := RunEndPublish(s0, s', w, ch);
    s' := RunEndSet(s0, s', w);
  }

  lemma {:induction false} RunEndPublish(s0: State, s: State, w: WPc, ch: Change) returns (s': State)
    requires Reaches(s0, s) && w != WWaiting
    requires Threaded(s.th, w, PubNext(ch, {}), map[Rw := Client(0), Access := Client(0)])
    ensures Reaches(s0, s') && Threaded(s'.th, w, SetDone, map[Rw := Client(0)]) && s'.d == s.d
  {
    s' := ClientStep(s0, s, w, PubNext(ch, {}), map[Rw := Client(0), Access := Client(0)], EndPublish(0),
                     SetDone, s.d, map[Rw := Client(0)]);
  }

  lemma {:induction false} RunEndSet(s0: State, s: State, w: WPc) returns (s': State)
    requires Reaches(s0, s) && w != WWaiting && Threaded(s.th, w, SetDone, map[Rw := Client(0)])
    ensures Reaches(s0, s') && Threaded(s'.th, w, Idle, map[]) && s'.d == s.d
  {
    s' := ClientStep(s0, s, w, SetDone, map[Rw := Client(0)], EndSet(0), Idle, s.d, map[]);
  }

  lemma {:induction false} RunPush(
      s0: State, s: State, w: WPc, ch: Change, id: SubId, chan: Channel) returns (s': State)
    requires Reaches(s0, s) && w != WWaiting
    requires Threaded(s.th, w, PubNext(ch, {id}), map[Rw := Client(0), Access := Client(0)])
    requires ch.key in s.d.subs && s.d.subs[ch.key] == map[id := chan]
    ensures Reaches(s0, s') && Threaded(s'.th, w, PubNext(ch, {}), map[Rw := Client(0), Access := Client(0)])
    ensures
      var item := Item(id, chan, ch.datatyp, ch.value);
      s'.d == s.d.(buffer := s.d.buffer + [item], enqueued := s.d.enqueued + [item])
  {
    var c := Client(0);
    var o2 := map[Rw := c, Access := c];
    assert o2[Sub := c] == map[Rw := c, Access := c, Sub := c];
    s' := ClientTakes(s0, s, w, PubNext(ch, {id}), o2, Sub, PubPush(ch, {id}));
    s' := RunPushItem(s0, s', w, ch, id, chan);
  }

  lemma {:induction false} RunPushItem(
      s0: State, s: State, w: WPc, ch: Change, id: SubId, chan: Channel) returns (s': State)
    requires Reaches(s0, s) && w != WWaiting
    requires Threaded(s.th, w, PubPush(ch, {id}), map[Rw := Client(0), Access := Client(0), Sub := Client(0)])
    requires ch.key in s.d.subs && s.d.subs[ch.key] == map[id := chan]
    ensures Reaches(s0, s') && Threaded(s'.th, w, PubNext(ch, {}), map[Rw := Client(0), Access := Client(0)])
    ensures
      var item := Item(id, chan, ch.datatyp, ch.value);
      s'.d == s.d.(buffer := s.d.buffer + [item], enqueued := s.d.enqueued + [item])
  {
    var c, item := Client(0), Item(id, chan, ch.datatyp, ch.value);
    var d' := s.d.(buffer := s.d.buffer + [item], enqueued := s.d.enqueued + [item]);
    assert {id} - {id} == {};
    s' := ClientStep(s0, s, w, PubPush(ch, {id}), map[Rw := c, Access := c, Sub := c], Push(0, id),
                     PubNext(ch, {}), d', map[Rw := c, Access := c]);
  }

  const chan1 := Channel(1, WsPlain)
  const id1 := Uuid(1)

  /** The constructor of the handler runs to its end before the worker has moved. */
  lemma {:induction false} Started(run0: bool) returns (s: State)
    ensures Reaches(Init(run0), s) && Threaded(s.th, WCheck, Idle, map[])
    ensures s.d == Init(run0).d.(marks := Marks(true, true, 0, 0, 0))
  {
    var s0 := Init(run0);
    ReachSelf(s0);
    s := ClientStep(s0, s0, WCheck, Idle, map[], StartFlag(0), Idle, s0.d.(marks := Marks(true, true, 0, 0, 0)), map[]);
  }

  /** A connection, one subscription on it, and one buffered notification; the worker has not moved. */
  lemma {:induction false} OneNotification(s0: State, s: State, w: WPc, ch: Change) returns (s': State)
    requires Reaches(s0, s) && Threaded(s.th, w, Idle, map[]) && w != WWaiting && s.d.marks.started
    requires s.d.net == Net(map[], map[], map[]) && s.d.subs == map[] && s.d.info == map[] && s.d.buffer == []
    ensures Reaches(s0, s') && Threaded(s'.th, w, Idle, map[])
    ensures s'.d.buffer == [Item(id1, chan1, ch.datatyp, ch.value)]
    ensures s'.d.net.conns == map[1 := WsPlain] && s'.d.net.known == map[1 := WsPlain]
    ensures s'.d.subs == map[ch.key := map[id1 := chan1]] && s'.d.marks == s.d.marks
  {
    s' := OneSubscription(s0, s, w, ch.key);
    s' := RunSet(s0, s', w, map[], ch);
    var none: map<Lock, Tid> := map[];
    assert none[Rw := Client(0)][Access := Client(0)] == map[Rw := Client(0), Access := Client(0)];
    assert SubsAt(s'.d.subs, ch.key).Keys == {id1};
    s' := RunNotify(s0, s', w, ch, id1, chan1);
  }

  lemma {:induction false} OneSubscription(s0: State, s: State, w: WPc, key: Key) returns (s': State)
    requires Reaches(s0, s) && Threaded(s.th, w, Idle, map[]) && w != WWaiting && s.d.marks.started
    requires s.d.net == Net(map[], map[], map[]) && s.d.subs == map[] && s.d.info == map[] && s.d.buffer == []
    ensures Reaches(s0, s') && Threaded(s'.th, w, Idle, map[])
    ensures s'.d.buffer == [] && s'.d.marks == s.d.marks
    ensures s'.d.net.conns == map[1 := WsPlain] && s'.d.net.known == map[1 := WsPlain]
    ensures s'.d.subs == map[key := map[id1 := chan1]]
  {
    s' := RunOp(s0, s, w, OpOpen(WsPlain), Choice(map[], id1, 1));
    s' := RunOp(s0, s', w, OpSubscribe(key, chan1), Choice(map[], id1, 1));
  }

  // ------------------------------------------------------------------ the deadlock

  /** The worker looks for a connection in one map and does not find it there. */
  lemma {:induction false} LookupMiss(s0: State, s: State, item: Item, kind: Kind, to: WPc) returns (s': State)
    requires Reaches(s0, s) && Threaded(s.th, WWantConn(item, kind), Idle, map[Sub := Worker])
    requires s.d.net.conns == map[]
    requires to == if NextKind(kind).Some? then WWantConn(item, NextKind(kind).value) else WMiss(item)
    ensures Reaches(s0, s') && Threaded(s'.th, to, Idle, map[Sub := Worker]) && s'.d == s.d
  {
    s' := WorkerTakes(s0, s, WWantConn(item, kind), Idle, map[Sub := Worker], Conn(kind));
    s' := LookIn(s0, s', item, kind, to);
  }

  lemma {:induction false} LookIn(s0: State, s: State, item: Item, kind: Kind, to: WPc) returns (s': State)
    requires Reaches(s0, s) && Threaded(s.th, WConn(item, kind), Idle, map[Sub := Worker][Conn(kind) := Worker])
    requires s.d.net.conns == map[]
    requires to == if NextKind(kind).Some? then WWantConn(item, NextKind(kind).value) else WMiss(item)
    ensures Reaches(s0, s') && Threaded(s'.th, to, Idle, map[Sub := Worker]) && s'.d == s.d
  {
    s' := WorkerStep(s0, s, WConn(item, kind), Idle, map[Sub := Worker][Conn(kind) := Worker], Work(NoChoice), to,
                     s.d, map[Sub := Worker]);
  }

  /** The worker's test of the running flag and of the buffer size. */
  lemma {:induction false} CheckAndTest(s0: State, s: State, to: WPc) returns (s': State)
    requires Reaches(s0, s) && Threaded(s.th, WCheck, Idle, map[]) && s.d.marks.threadRun
    requires to == if s.d.buffer != [] then WWantPop else WWantWait
    ensures Reaches(s0, s') && Threaded(s'.th, to, Idle, map[])
    ensures s'.d == s.d.(marks := s.d.marks.(checkedAt := |s.d.enqueued|))
  {
    var s1 := WorkerStep(s0, s, WCheck, Idle, map[], Work(NoChoice), WTest, s.d, map[]);
    s' := TestSize(s0, s1, to);
  }

  lemma {:induction false} TestSize(s0: State, s: State, to: WPc) returns (s': State)
    requires Reaches(s0, s) && Threaded(s.th, WTest, Idle, map[])
    requires to == if s.d.buffer != [] then WWantPop else WWantWait
    ensures Reaches(s0, s') && Threaded(s'.th, to, Idle, map[])
    ensures s'.d == s.d.(marks := s.d.marks.(checkedAt := |s.d.enqueued|))
  {
    s' := WorkerStep(s0, s, WTest, Idle, map[], Work(NoChoice), to,
                     s.d.(marks := s.d.marks.(checkedAt := |s.d.enqueued|)), map[]);
  }

  lemma {:induction false} TakeSub(s0: State, s: State, w: WPc, to: WPc) returns (s': State)
    requires Reaches(s0, s) && Threaded(s.th, w, Idle, map[])
    requires (w == WWantPop && to == WPop) || (w == WWantWait && to == WHoldWait)
    ensures Reaches(s0, s') && Threaded(s'.th, to, Idle, map[Sub := Worker]) && s'.d == s.d
  {
    var none: map<Lock, Tid> := map[];
    s' := WorkerTakes(s0, s, w, Idle, none, Sub);
    assert none[Sub := Worker] == map[Sub := Worker];
  }

  /** The worker pops a notification. */
  lemma {:induction false} PopOne(s0: State, s: State, item: Item) returns (s': State)
    requires Reaches(s0, s) && Threaded(s.th, WPop, Idle, map[Sub := Worker])
    requires s.d.buffer == [item] && item.chan.kind != Grpc
    ensures Reaches(s0, s') && Threaded(s'.th, WWantConn(item, WsPlain), Idle, map[Sub := Worker])
    ensures s'.d == s.d.(buffer := [], popped := s.d.popped + [item])
  {
    s' := WorkerStep(s0, s, WPop, Idle, map[Sub := Worker], Work(NoChoice), WWantConn(item, WsPlain),
                     s.d.(buffer := [], popped := s.d.popped + [item]), map[Sub := Worker]);
  }

  /** The worker searches all four connection maps in vain, holding subMutex. */
  lemma {:induction false} SearchInVain(s0: State, s: State, item: Item) returns (s': State)
    requires Reaches(s0, s) && Threaded(s.th, WWantConn(item, WsPlain), Idle, map[Sub := Worker])
    requires s.d.net.conns == map[]
    ensures Reaches(s0, s') && Threaded(s'.th, WMiss(item), Idle, map[Sub := Worker]) && s'.d == s.d
  {
    s' := SearchTwo(s0, s, item, WsPlain, WWantConn(item, HttpPlain));
    s' := SearchTwo(s0, s', item, HttpPlain, WMiss(item));
  }

  lemma {:induction false} SearchTwo(s0: State, s: State, item: Item, kind: Kind, to: WPc) returns (s': State)
    requires Reaches(s0, s) && Threaded(s.th, WWantConn(item, kind), Idle, map[Sub := Worker])
    requires s.d.net.conns == map[]
    requires (kind == WsPlain && to == WWantConn(item, HttpPlain)) || (kind == HttpPlain && to == WMiss(item))
    ensures Reaches(s0, s') && Threaded(s'.th, to, Idle, map[Sub := Worker]) && s'.d == s.d
  {
    var next := NextKind(kind).value;
    s' := LookupMiss(s0, s, item, kind, WWantConn(item, next));
    s' := LookupMiss(s0, s', item, next, to);
  }

  /** The subscriber disconnects with a notification still buffered. */
  lemma {:induction false} Disconnect(s0: State, s: State) returns (s': State)
    requires Reaches(s0, s) && Threaded(s.th, WCheck, Idle, map[]) && s.d.marks.started
    requires s.d.net.conns == map[1 := WsPlain] && s.d.net.known == map[1 := WsPlain]
    ensures Reaches(s0, s') && Threaded(s'.th, WCheck, Idle, map[])
    ensures s'.d == s.d.(net := s.d.net.(conns := map[]))
  {
    s' := RunOp(s0, s, WCheck, OpClose(1, WsPlain), NoChoice);
    assert s.d.net.conns - {1} == map[];
  }

  /**
    The circular wait is reachable, from every start-up: a client subscribes and disconnects with
    a notification buffered; the worker, holding subMutex, finds no connection and wants
    accessMutex; the next set on the same key holds accessMutex and wants subMutex.
   */
  lemma {:induction false} DeadlockReachable(run0: bool, ch: Change) returns (s: State)
    ensures Reaches(Init(run0), s) && Deadlocked(s.th) && s.d.marks.started
  {
    var item: Item;
    s, item := LeftBehind(run0, ch);
    s := SendAndPublish(Init(run0), s, item, ch);
  }

  /** The subscriber has gone, its subscription and one notification for it are still there. */
  lemma {:induction false} LeftBehind(run0: bool, ch: Change) returns (s: State, item: Item)
    ensures Reaches(Init(run0), s) && Threaded(s.th, WCheck, Idle, map[]) && s.d.marks.started && s.d.marks.threadRun
    ensures s.d.buffer == [item] && item.chan.kind != Grpc && s.d.net.conns == map[]
    ensures SubsAt(s.d.subs, ch.key) != map[]
  {
    s := Started(run0);
    s := OneNotification(Init(run0), s, WCheck, ch);
    item := s.d.buffer[0];
    assert id1 in SubsAt(s.d.subs, ch.key);
    s := Disconnect(Init(run0), s);
  }

  /** The worker's send fails while client 0 publishes on the key of the dead subscription. */
  lemma {:induction false} SendAndPublish(s0: State, s: State, item: Item, ch: Change) returns (s': State)
    requires Reaches(s0, s) && Threaded(s.th, WCheck, Idle, map[]) && s.d.marks.started && s.d.marks.threadRun
    requires s.d.buffer == [item] && item.chan.kind != Grpc && s.d.net.conns == map[]
    requires SubsAt(s.d.subs, ch.key) != map[]
    ensures Reaches(s0, s') && Deadlocked(s'.th) && s'.d.marks.started
  {
    s' := CheckAndTest(s0, s, WWantPop);
    s' := FailedSend(s0, s', item);
    assert SubsAt(s'.d.subs, ch.key).Keys != {};
    s' := RunSet(s0, s', WMiss(item), map[Sub := Worker], ch);
  }

  /** The worker pops the notification and finds no connection for it. */
  lemma {:induction false} FailedSend(s0: State, s: State, item: Item) returns (s': State)
    requires Reaches(s0, s) && Threaded(s.th, WWantPop, Idle, map[])
    requires s.d.buffer == [item] && item.chan.kind != Grpc && s.d.net.conns == map[]
    ensures Reaches(s0, s') && Threaded(s'.th, WMiss(item), Idle, map[Sub := Worker])
    ensures s'.d.subs == s.d.subs && s'.d.marks == s.d.marks
  {
    s' := TakeSub(s0, s, WWantPop, WPop);
    s' := PopOne(s0, s', item);
    s' := SearchInVain(s0, s', item);
  }

  // ------------------------------------------------------------------ the lost wake-up

  /** The worker, having found the buffer empty some time ago, goes to sleep. */
  lemma {:induction false} Park(s0: State, s: State) returns (s': State)
    requires Reaches(s0, s) && Threaded(s.th, WWantWait, Idle, map[])
    ensures Reaches(s0, s') && Threaded(s'.th, WWaiting, Idle, map[]) && s'.d.buffer == s.d.buffer
    ensures s'.d.marks.threadRun == s.d.marks.threadRun && s'.d.marks.started == s.d.marks.started
  {
    s' := TakeSub(s0, s, WWantWait, WHoldWait);
    s' := StartWaiting(s0, s');
  }

  lemma {:induction false} StartWaiting(s0: State, s: State) returns (s': State)
    requires Reaches(s0, s) && Threaded(s.th, WHoldWait, Idle, map[Sub := Worker])
    ensures Reaches(s0, s') && Threaded(s'.th, WWaiting, Idle, map[]) && s'.d.buffer == s.d.buffer
    ensures s'.d.marks.threadRun == s.d.marks.threadRun && s'.d.marks.started == s.d.marks.started
  {
    s' := WorkerStep(s0, s, WHoldWait, Idle, map[Sub := Worker], Work(NoChoice), WWaiting,
                     s.d.(marks := s.d.marks.(waitAt := |s.d.enqueued|)), map[]);
  }

  /**
    The wait has no predicate and the emptiness test no lock, so a notification can stay
    behind: the worker is running and waits, the buffer is not empty, nobody holds a lock and
    no wake-up is coming.
   */
  lemma {:induction false} LostWakeupReachable(run0: bool, ch: Change) returns (s: State)
    ensures Reaches(Init(run0), s)
    ensures Wk(s) == WWaiting && s.d.buffer != [] && s.d.marks.threadRun && s.d.marks.started && s.th.owner == map[]
  {
    s := FoundEmpty(run0);
    s := OneNotification(Init(run0), s, WWantWait, ch);
    s := Park(Init(run0), s);
  }

  /** The worker has found the empty buffer empty and not locked subMutex yet. */
  lemma {:induction false} FoundEmpty(run0: bool) returns (s: State)
    ensures Reaches(Init(run0), s) && Threaded(s.th, WWantWait, Idle, map[])
    ensures s.d == Init(run0).d.(marks := Marks(true, true, 0, 0, 0))
  {
    s := Started(run0);
    s := CheckAndTest(Init(run0), s, WWantWait);
  }

  // ------------------------------------------------------------------ the early end

  /** A worker that has ended never pops anything again, whatever is set. */
  lemma {:induction false} EndedWorkerIsDead(s: State, run: seq<Event>)
    requires Inv(s) && Wk(s) == WExit && ValidRun(s, run)
    ensures Wk(Exec(s, run)) == WExit && Exec(s, run).d.popped == s.d.popped
    decreases |run|
  {
    if run != [] {
      EndedStays(s, run[0]);
      StepInv(s, run[0]);
      EndedWorkerIsDead(Next(s, run[0]), run[1..]);
    }
  }

  lemma {:induction false} EndedStays(s: State, e: Event)
    requires Inv(s) && Wk(s) == WExit && Enabled(s, e)
    ensures Wk(Next(s, e)) == WExit && Next(s, e).d.popped == s.d.popped
  {
    Known(s.th, Worker);
    PoppedKept(s, e);
    WorkerAfter(s, e);
  }

  /** The worker takes a step of its own before startThread has set threadRun. */
  predicate LooksFirst(run: seq<Event>)
    decreases |run|
  {
    run != [] && !run[0].StartFlag? && (run[0].Work? || LooksFirst(run[1..]))
  }

  /** No step of the run is the critical section of stopThread. */
  ghost predicate NoStop(s: State, run: seq<Event>)
    requires ValidRun(s, run)
    decreases |run|
  {
    run == [] || (!Stops(s, run[0]) && NoStop(Next(s, run[0]), run[1..]))
  }

  ghost predicate Stops(s: State, e: Event) {
    e.Finish? && PcOf(s, Client(e.t)) == OpHold(OpStop)
  }

  /** threadRun is unset and nothing has happened yet. */
  ghost predicate NotStarted(s: State) {
    && !s.d.marks.started && !s.d.marks.threadRun && s.d.popped == []
    && Wk(s) == WCheck && s.d.net.sessions == map[]
    && forall t: nat {:trigger Client(t)} :: PcIn(s.th, Client(t)) == Idle
  }

  /** A worker that finds threadRun unset before startThread sets it ends at once. */
  lemma {:induction false} NotStartedStep(s: State, e: Event)
    requires Inv(s) && NotStarted(s) && Enabled(s, e)
    ensures (e.Work? && Wk(Next(s, e)) == WExit && Next(s, e).d.popped == []) || (e.StartFlag? && Alive(Next(s, e)))
  {
    OnlyTwo(s, e);
    if e.Work? {
      PoppedSame(s, e.choice);
    } else {
      WorkerAfter(s, e);
      PoppedKept(s, e);
    }
  }

  lemma {:induction false} PoppedSame(s: State, ch: Choice)
    requires Inv(s) && NotStarted(s) && Enabled(s, Work(ch))
    ensures Wk(Next(s, Work(ch))) == WExit && Next(s, Work(ch)).d.popped == []
  {
    Known(s.th, Worker);
  }

  /** Nothing else can happen before. */
  lemma {:induction false} OnlyTwo(s: State, e: Event)
    requires Inv(s) && NotStarted(s) && Enabled(s, e)
    ensures e.Work? || e.StartFlag?
  {
    Known(s.th, Worker);
    if !e.Work? && !e.Spurious? && Actor(e).Client? {
      assert PcIn(s.th, Client(Actor(e).n)) == Idle;
    }
  }

  /** The flag is set and the worker is running. */
  ghost predicate Alive(s: State) {
    s.d.marks.threadRun && Wk(s) != WExit
  }

  lemma {:induction false} AliveStep(s: State, e: Event)
    requires Inv(s) && Alive(s) && Enabled(s, e) && !Stops(s, e)
    ensures Alive(Next(s, e))
  {
    FlagKept(s, e);
    if Actor(e) == Worker {
      WorkerGoesOn(s, e);
    } else {
      WorkerAfter(s, e);
    }
  }

  lemma {:induction false} FlagKept(s: State, e: Event)
    requires s.d.marks.threadRun && Enabled(s, e) && !Stops(s, e)
    ensures Next(s, e).d.marks.threadRun
  {
    assert Effect(s, e).marks.threadRun;
  }

  lemma {:induction false} WorkerGoesOn(s: State, e: Event)
    requires Locks(s.th) && Alive(s) && Enabled(s, e) && Actor(e) == Worker
    ensures Wk(Next(s, e)) != WExit
  {
    Known(s.th, Worker);
    NextThreads(s, e);
  }

  lemma {:induction false} AliveRun(s: State, run: seq<Event>)
    requires Inv(s) && Alive(s) && ValidRun(s, run) && NoStop(s, run)
    ensures Alive(Exec(s, run))
    decreases |run|
  {
    if run != [] {
      AliveStep(s, run[0]);
      StepInv(s, run[0]);
      AliveRun(Next(s, run[0]), run[1..]);
    }
  }

  lemma {:induction false} InitAt(run0: bool)
    ensures if run0 then Alive(Init(run0)) else NotStarted(Init(run0))
  {
  }

  /**
    startThread launches the thread before it sets threadRun.  In every run without a stop the
    worker has ended if and only if threadRun happened to be false and the worker looked at it
    before it was set.
   */
  lemma {:induction false} EndsEarlyIff(run0: bool, run: seq<Event>)
    requires ValidRun(Init(run0), run) && NoStop(Init(run0), run)
    ensures Wk(Exec(Init(run0), run)) == WExit <==> !run0 && LooksFirst(run)
  {
    var s := Init(run0);
    InitInv(run0);
    InitAt(run0);
    if run0 {
      AliveRun(s, run);
    } else if run != [] {
      NotStartedStep(s, run[0]);
      StepInv(s, run[0]);
      if run[0].Work? {
        EndedWorkerIsDead(Next(s, run[0]), run[1..]);
      } else {
        AliveRun(Next(s, run[0]), run[1..]);
      }
    }
  }

  /** And after such a start no run, with or without a stop, delivers anything. */
  lemma {:induction false} StartRace(run: seq<Event>)
    requires ValidRun(Init(false), run) && LooksFirst(run)
    ensures Wk(Exec(Init(false), run)) == WExit && Exec(Init(false), run).d.popped == []
  {
    var s := Init(false);
    InitInv(false);
    InitAt(false);
    NotStartedStep(s, run[0]);
    StepInv(s, run[0]);
    EndedWorkerIsDead(Next(s, run[0]), run[1..]);
  }
}
