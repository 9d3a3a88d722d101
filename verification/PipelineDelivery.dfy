/** From the buffer to the sessions: what the worker, the connections and the writes keep. */
module PipelineDelivery {
  import opened Basics
  import opened Json
  import opened Subscriptions
  import opened Pipeline
  import opened PipelineInvariant
  import Q = WriteQueue

  /** Connection ids are never reused, and every subscription names a channel that existed. */
  ghost predicate NetOk(d: Data) {
    var net := d.net;
    && net.known.Keys == net.sessions.Keys
    && (forall c | c in net.conns :: c in net.known && net.conns[c] == net.known[c])
    && (forall c | c in net.known :: net.known[c] != Grpc)
    && (forall id | id in d.info :: ChannelOk(net, d.info[id].chan))
  }

  ghost predicate ItemOk(d: Data, item: Item) {
    item.id in d.info && d.info[item.id].chan == item.chan && item.chan.kind != Grpc
  }

  /** What the worker knows at each of its program counters. */
  ghost predicate WorkerOk(w: WPc, d: Data) {
    var conns, m := d.net.conns, d.marks;
    && m.checkedAt <= |d.enqueued| && m.wokenAt <= |d.enqueued|
    && match w
       case WWantPop => d.buffer != []
       case WPop => d.buffer != []
       case WWantConn(item, kind) => Searching(d, item, kind)
       case WConn(item, kind) => Searching(d, item, kind)
       case WWantQueue(item, kind) => Found(d, item, kind)
       case WQueue(item, kind) => Found(d, item, kind)
       case WMiss(item) => ItemOk(d, item) && item.chan.conn !in conns
       case WMissHold(item) => ItemOk(d, item) && item.chan.conn !in conns
       case WWantWait => Drained(d)
       case WHoldWait => Drained(d)
       case WWaiting => Drained(d) && m.waitAt == |d.enqueued|
       case _ => true
  }

  ghost predicate Searching(d: Data, item: Item, kind: Kind) {
    && ItemOk(d, item) && kind != Grpc
    && (item.chan.conn in d.net.conns ==> KindIndex(kind) <= KindIndex(d.net.conns[item.chan.conn]))
  }

  ghost predicate Found(d: Data, item: Item, kind: Kind) {
    ItemOk(d, item) && IsWs(kind) && item.chan.conn in d.net.conns && d.net.conns[item.chan.conn] == kind
  }

  /** Everything enqueued up to the last emptiness check is popped, also what the last wake-up saw. */
  ghost predicate Drained(d: Data) {
    |d.popped| == d.marks.checkedAt && d.marks.wokenAt <= d.marks.checkedAt
  }

  /** Only ids that subscribed are ever written to a session. */
  ghost predicate NotesKnown(d: Data) {
    forall c, i | c in d.net.sessions && 0 <= i < |d.net.sessions[c].written| && d.net.sessions[c].written[i].Note? ::
      d.net.sessions[c].written[i].item.id in d.info
  }

  /** The value the worker has popped and not yet written, if it is for this subscription. */
  function InHand(w: WPc, id: SubId): seq<Json> {
    match w
    case WWantConn(item, _) => if item.id == id then [item.value] else []
    case WConn(item, _) => if item.id == id then [item.value] else []
    case WWantQueue(item, _) => if item.id == id then [item.value] else []
    case WQueue(item, _) => if item.id == id then [item.value] else []
    case _ => []
  }

  /** What was written to a session for `id` is a prefix of what was popped, all of it while it is open. */
  ghost predicate Reached(w: WPc, d: Data, id: SubId)
    requires id in d.info && NetOk(d)
  {
    var c := d.info[id].chan.conn;
    IsWs(d.info[id].chan.kind) ==>
      && Heard(d.net.sessions[c].written, id) <= Values(d.popped, id)
      && (c in d.net.conns ==> Heard(d.net.sessions[c].written, id) + InHand(w, id) == Values(d.popped, id))
  }

  ghost predicate Delivery(w: WPc, d: Data) {
    && NetOk(d) && WorkerOk(w, d) && NotesKnown(d)
    && forall id | id in d.info :: Reached(w, d, id)
  }

  // ------------------------------------------------------------------ worker steps

  lemma {:induction false} DeliveryTaken(w: WPc, d: Data)
    requires Delivery(w, d) && WWants(w).Some?
    ensures Delivery(WTaken(w), d)
  {
    forall id | id in d.info ensures Reached(WTaken(w), d, id) {
      assert Reached(w, d, id);
      assert InHand(WTaken(w), id) == InHand(w, id);
    }
  }

  lemma {:induction false} DeliveryPop(d: Data)
    requires Delivery(WPop, d) && Queued(d)
    ensures Delivery(WorkPc(WPop, d), d.(buffer := d.buffer[1..], popped := d.popped + [d.buffer[0]]))
  {
    var item := d.buffer[0];
    assert item == d.enqueued[|d.popped|];
    var w', d' := WorkPc(WPop, d), d.(buffer := d.buffer[1..], popped := d.popped + [item]);
    forall id | id in d'.info ensures Reached(w', d', id) {
      assert Reached(WPop, d, id);
      ValuesAppend(d.popped, item, id);
    }
  }

  lemma {:induction false} DeliveryLookup(d: Data, item: Item, kind: Kind)
    requires Delivery(WConn(item, kind), d)
    ensures Delivery(WorkPc(WConn(item, kind), d), d)
  {
    var w, w' := WConn(item, kind), WorkPc(WConn(item, kind), d);
    forall id | id in d.info ensures Reached(w', d, id) {
      assert Reached(w, d, id);
    }
  }

  function Noted(d: Data, item: Item): Data
    requires item.chan.conn in d.net.sessions
  {
    var c := item.chan.conn;
    d.(net := SetSession(d.net, c, Q.Write(d.net.sessions[c], Note(item))))
  }

  lemma {:induction false} DeliveryWrite(d: Data, item: Item, kind: Kind)
    requires Delivery(WQueue(item, kind), d)
    ensures Delivery(WRelease, Noted(d, item))
  {
    assert NetOk(Noted(d, item)) && WorkerOk(WRelease, Noted(d, item));
    NoteKnown(d, item);
    forall id | id in d.info ensures Reached(WRelease, Noted(d, item), id) {
      assert Reached(WQueue(item, kind), d, id);
      NoteReached(d, item, kind, id);
    }
  }

  lemma {:induction false} NoteKnown(d: Data, item: Item)
    requires NotesKnown(d) && item.id in d.info && item.chan.conn in d.net.sessions
    ensures NotesKnown(Noted(d, item))
  {
    var q := d.net.sessions[item.chan.conn];
    assert Q.Write(q, Note(item)).written == q.written + [Note(item)];
  }

  lemma {:induction false} NoteReached(d: Data, item: Item, kind: Kind, id: SubId)
    requires NetOk(d) && Found(d, item, kind) && NetOk(Noted(d, item))
    requires id in d.info && Reached(WQueue(item, kind), d, id)
    ensures Reached(WRelease, Noted(d, item), id)
  {
    var q := d.net.sessions[item.chan.conn];
    assert Q.Write(q, Note(item)).written == q.written + [Note(item)];
    HeardAppend(q.written, Note(item), id);
  }

  lemma {:induction false} DeliveryMiss(w: WPc, d: Data, v: map<Key, SubId>)
    requires Delivery(w, d) && (w.WMissHold? || w == WRelease)
    ensures Delivery(WRelease, DropChannel(d, v))
  {
    var d' := DropChannel(d, v);
    forall id | id in d'.info ensures Reached(WRelease, d', id) {
      assert Reached(w, d, id);
    }
  }

  lemma {:induction false} DeliveryWork(w: WPc, d: Data, ch: Choice)
    requires Delivery(w, d) && Queued(d) && WorkEnabled(w, d, ch)
    ensures Delivery(WorkPc(w, d), WorkEffect(w, d, ch))
  {
    if w.WPop? {
      DeliveryPop(d);
    } else if w.WConn? {
      DeliveryLookup(d, w.item, w.kind);
    } else if w.WQueue? {
      DeliveryWrite(d, w.item, w.kind);
    } else if w.WMissHold? {
      DeliveryMiss(w, d, ch.victims);
    } else {
      DeliveryPlain(w, WorkPc(w, d), d, WorkEffect(w, d, ch));
    }
  }

  /** A step in which nothing is popped or written and the connections stay. */
  lemma {:induction false} DeliveryPlain(w: WPc, w': WPc, d: Data, d': Data)
    requires Delivery(w, d) && WorkerOk(w', d')
    requires d'.net == d.net && d'.info == d.info && d'.popped == d.popped
    requires forall id :: InHand(w', id) == InHand(w, id)
    ensures Delivery(w', d')
  {
    forall id | id in d'.info ensures Reached(w', d', id) {
      assert Reached(w, d, id);
    }
  }

  // ------------------------------------------------------------------ the other threads

  /** The sessions change, but nothing is written to them for a subscription. */
  lemma {:induction false} DeliverySession(w: WPc, d: Data, c: ConnId, q: Q.Session<Msg>, more: seq<Msg>)
    requires Delivery(w, d) && c in d.net.sessions
    requires q.written == d.net.sessions[c].written + more && (more == [] || (|more| == 1 && more[0].Response?))
    ensures Delivery(w, d.(net := SetSession(d.net, c, q)))
  {
    var d' := d.(net := SetSession(d.net, c, q));
    forall id | id in d'.info ensures Reached(w, d', id) {
      assert Reached(w, d, id);
      NotHeard(d.net.sessions[c].written, more, id);
    }
  }

  /** Responses carry nothing to a subscription. */
  lemma {:induction false} NotHeard(ms: seq<Msg>, more: seq<Msg>, id: SubId)
    requires more == [] || (|more| == 1 && more[0].Response?)
    ensures Heard(ms + more, id) == Heard(ms, id)
  {
    if more == [] {
      assert ms + more == ms;
    } else {
      assert more == [more[0]];
      HeardAppend(ms, more[0], id);
    }
  }

  lemma {:induction false} DeliveryRetire(w: WPc, d: Data, ids: set<SubId>, subs: Table)
    requires Delivery(w, d)
    ensures Delivery(w, d.(subs := subs, info := Retire(d.info, ids, d.pubLog)))
  {
    var d' := d.(subs := subs, info := Retire(d.info, ids, d.pubLog));
    forall id | id in d'.info ensures Reached(w, d', id) {
      assert Reached(w, d, id);
    }
  }

  lemma {:induction false} NeverHeard(ms: seq<Msg>, id: SubId)
    requires forall i | 0 <= i < |ms| && ms[i].Note? :: ms[i].item.id != id
    ensures Heard(ms, id) == []
    decreases |ms|
  {
    if ms != [] {
      NeverHeard(ms[..|ms| - 1], id);
    }
  }

  lemma {:induction false} DeliverySubscribe(w: WPc, d: Data, id: SubId, i: Info, subs: Table)
    requires Delivery(w, d) && Queued(d) && id !in d.info && ChannelOk(d.net, i.chan)
    ensures Delivery(w, d.(subs := subs, info := d.info[id := i]))
  {
    var d' := d.(subs := subs, info := d.info[id := i]);
    assert NetOk(d');
    assert WorkerOk(w, d') && InHand(w, id) == [];
    assert NotesKnown(d');
    forall j | j in d'.info ensures Reached(w, d', j) {
      if j == id {
        NewIdUnheard(d, id, i.chan);
      } else {
        assert Reached(w, d, j);
      }
    }
  }

  lemma {:induction false} NewIdUnheard(d: Data, id: SubId, chan: Channel)
    requires Queued(d) && NotesKnown(d) && id !in d.info
    ensures Values(d.popped, id) == []
    ensures chan.conn in d.net.sessions ==> Heard(d.net.sessions[chan.conn].written, id) == []
  {
    assert forall n | 0 <= n < |d.popped| :: d.popped[n] == d.enqueued[n];
    NeverNotified(d.popped, id);
    if chan.conn in d.net.sessions {
      NeverHeard(d.net.sessions[chan.conn].written, id);
    }
  }

  lemma {:induction false} DeliveryOpen(w: WPc, d: Data, c: ConnId, kind: Kind)
    requires Delivery(w, d) && c !in d.net.known && kind != Grpc
    ensures Delivery(w, d.(net := Net(d.net.conns[c := kind], d.net.sessions[c := Q.Fresh()], d.net.known[c := kind])))
  {
    var net' := Net(d.net.conns[c := kind], d.net.sessions[c := Q.Fresh()], d.net.known[c := kind]);
    var d' := d.(net := net');
    assert NetOk(d') by {
      forall id | id in d.info ensures ChannelOk(net', d.info[id].chan) {
        assert ChannelOk(d.net, d.info[id].chan);
      }
    }
    assert WorkerOk(w, d') by {
      OpenWorkerOk(w, d, d', c);
    }
    forall id | id in d'.info ensures Reached(w, d', id) {
      assert Reached(w, d, id) && ChannelOk(d.net, d.info[id].chan);
    }
  }

  /** A connection id the worker has never seen does not disturb it. */
  lemma {:induction false} OpenWorkerOk(w: WPc, d: Data, d': Data, c: ConnId)
    requires NetOk(d) && WorkerOk(w, d) && c !in d.net.known && d' == d.(net := d'.net)
    requires c in d'.net.conns && d'.net.conns == d.net.conns[c := d'.net.conns[c]]
    ensures WorkerOk(w, d')
  {
    forall item: Item | ItemOk(d, item) ensures item.chan.conn != c {
      assert ChannelOk(d.net, d.info[item.id].chan);
    }
  }

  /** A connection is removed while the worker is not between finding it and writing to it. */
  lemma {:induction false} DeliveryClose(w: WPc, d: Data, c: ConnId)
    requires Delivery(w, d)
    requires w.WWantQueue? || w.WQueue? ==> w.item.chan.conn != c
    ensures Delivery(w, d.(net := d.net.(conns := d.net.conns - {c})))
  {
    var d' := d.(net := d.net.(conns := d.net.conns - {c}));
    forall id | id in d'.info ensures ChannelOk(d'.net, d'.info[id].chan) {
      assert ChannelOk(d.net, d.info[id].chan);
    }
    forall id | id in d'.info ensures Reached(w, d', id) {
      assert Reached(w, d, id);
    }
  }

  lemma {:induction false} DeliveryOp(w: WPc, d: Data, op: Op, ch: Choice)
    requires Delivery(w, d) && Queued(d) && OpAllowed(d, op, ch)
    requires op.OpClose? && (w.WWantQueue? || w.WQueue?) ==> w.item.chan.conn != op.conn
    ensures Delivery(w, OpEffect(d, op, ch))
  {
    match op {
      case OpSubscribe(k, chan) =>
        DeliverySubscribe(w, d, ch.id, Info(k, chan, |ByKey(d.pubLog, k)|, None), AddSub(d.subs, k, ch.id, chan));
      case OpUnsubscribe(id) => DeliveryRetire(w, d, {id}, DropSub(d.subs, id));
      case OpUnsubscribeAll(conn) => DeliveryRetire(w, d, ch.victims.Values, DropVictims(d.subs, ch.victims));
      case OpOpen(kind) => DeliveryOpen(w, d, ch.conn, kind);
      case OpClose(c, _) => DeliveryClose(w, d, c);
      case OpRespond(c, text) =>
        assert Q.Write(d.net.sessions[c], Response(text)).written == d.net.sessions[c].written + [Response(text)];
        DeliverySession(w, d, c, Q.Write(d.net.sessions[c], Response(text)), [Response(text)]);
      case OpComplete(c) => DeliverySession(w, d, c, Q.Complete(d.net.sessions[c]), []);
      case OpTree =>
      case OpStop => DeliveryPlain(w, w, d, OpEffect(d, op, ch));
    }
  }

  lemma {:induction false} DeliveryPush(w: WPc, d: Data, item: Item)
    requires Delivery(w, d) && !w.WWaiting?
    ensures Delivery(w, d.(buffer := d.buffer + [item], enqueued := d.enqueued + [item]))
  {
    DeliveryPlain(w, w, d, d.(buffer := d.buffer + [item], enqueued := d.enqueued + [item]));
  }

  /** The notified worker: it leaves the wait and has seen everything enqueued so far. */
  lemma {:induction false} DeliveryWake(d: Data, d': Data)
    requires Delivery(WWaiting, d)
    requires d'.net == d.net && d'.info == d.info && d'.popped == d.popped && d.enqueued <= d'.enqueued
    requires d'.marks.checkedAt == d.marks.checkedAt && d'.marks.wokenAt == |d'.enqueued|
    ensures Delivery(WWoken, d')
  {
    DeliveryPlain(WWaiting, WWoken, d, d');
  }

  // ------------------------------------------------------------------ every step

  ghost predicate Deliv(s: State) {
    PcIn(s.th, Worker).At? && Delivery(Wk(s), s.d)
  }

  /** Where a step that is not the worker's leaves the worker. */
  lemma {:induction false} WorkerAfter(s: State, e: Event)
    requires Locks(s.th) && Enabled(s, e) && Actor(e) != Worker
    ensures PcIn(Next(s, e).th, Worker) ==
              if Notifies(s, e) && PcIn(s.th, Worker) == At(WWaiting) then At(WWoken) else PcIn(s.th, Worker)
  {
  }

  lemma {:induction false} DelivWork(s: State, ch: Choice)
    requires Deliv(s) && Queued(s.d) && Enabled(s, Work(ch))
    ensures Deliv(Next(s, Work(ch)))
  {
    DeliveryWork(Wk(s), s.d, ch);
  }

  /** The worker is at `w`, and what holds there holds of the state. */
  lemma {:induction false} DelivAt(w: WPc, s: State)
    requires PcIn(s.th, Worker) == At(w) && Delivery(w, s.d)
    ensures Deliv(s)
  {
  }

  lemma {:induction false} TakenIs(s: State)
    requires Enabled(s, Acquire(Worker)) && PcIn(s.th, Worker).At?
    ensures WWants(Wk(s)).Some?
    ensures PcIn(Next(s, Acquire(Worker)).th, Worker) == At(WTaken(Wk(s))) && Next(s, Acquire(Worker)).d == s.d
  {
  }

  lemma {:induction false} DelivTaken(s: State)
    requires Deliv(s) && Enabled(s, Acquire(Worker))
    ensures Deliv(Next(s, Acquire(Worker)))
  {
    TakenIs(s);
    DeliveryTaken(Wk(s), s.d);
    DelivAt(WTaken(Wk(s)), Next(s, Acquire(Worker)));
  }

  lemma {:induction false} SpuriousIs(s: State)
    requires Enabled(s, Spurious)
    ensures PcIn(Next(s, Spurious).th, Worker) == At(WWoken)
    ensures Next(s, Spurious).d == s.d.(marks := s.d.marks.(wokenAt := |s.d.enqueued|))
  {
  }

  lemma {:induction false} DelivSpurious(s: State)
    requires Deliv(s) && Enabled(s, Spurious)
    ensures Deliv(Next(s, Spurious))
  {
    SpuriousIs(s);
    DeliveryWake(s.d, Next(s, Spurious).d);
    DelivAt(WWoken, Next(s, Spurious));
  }

  lemma {:induction false} StartIs(s: State, t: nat)
    requires Locks(s.th) && Enabled(s, StartFlag(t))
    ensures PcIn(Next(s, StartFlag(t)).th, Worker) == PcIn(s.th, Worker)
    ensures Next(s, StartFlag(t)).d == s.d.(marks := s.d.marks.(threadRun := true, started := true))
  {
    WorkerAfter(s, StartFlag(t));
  }

  lemma {:induction false} DelivStart(s: State, t: nat)
    requires Locks(s.th) && Deliv(s) && Enabled(s, StartFlag(t))
    ensures Deliv(Next(s, StartFlag(t)))
  {
    StartIs(s, t);
    DeliveryPlain(Wk(s), Wk(s), s.d, Next(s, StartFlag(t)).d);
    DelivAt(Wk(s), Next(s, StartFlag(t)));
  }

  /** The map entry a removal erases is not the one the worker is writing to: both need its lock. */
  lemma {:induction false} CloseWaits(s: State, t: nat)
    requires Locks(s.th) && Deliv(s) && PcIn(s.th, Client(t)).OpHold? && PcIn(s.th, Client(t)).op.OpClose?
    requires OpFine(PcIn(s.th, Client(t)), s.d.net)
    ensures
      var w := Wk(s);
      w.WWantQueue? || w.WQueue? ==> w.item.chan.conn != PcIn(s.th, Client(t)).op.conn
  {
    var w, op := Wk(s), PcIn(s.th, Client(t)).op;
    HolderIs(s.th, Client(t), Conn(op.kind));
    if w.WWantQueue? || w.WQueue? {
      HolderIs(s.th, Worker, Conn(w.kind));
    }
  }

  lemma {:induction false} DelivFinish(s: State, t: nat, ch: Choice)
    requires Locks(s.th) && Deliv(s) && Queued(s.d) && Enabled(s, Finish(t, ch))
    requires OpFine(PcIn(s.th, Client(t)), s.d.net)
    ensures Deliv(Next(s, Finish(t, ch)))
  {
    if PcIn(s.th, Client(t)).op.OpStop? {
      DelivStop(s, t, ch);
    } else {
      SectionIs(s, t, ch);
      if PcIn(s.th, Client(t)).op.OpClose? {
        CloseWaits(s, t);
      }
      DeliveryOp(Wk(s), s.d, PcIn(s.th, Client(t)).op, ch);
      DelivAt(Wk(s), Next(s, Finish(t, ch)));
    }
  }

  lemma {:induction false} SectionIs(s: State, t: nat, ch: Choice)
    requires Locks(s.th) && Enabled(s, Finish(t, ch)) && !PcIn(s.th, Client(t)).op.OpStop?
    ensures PcIn(Next(s, Finish(t, ch)).th, Worker) == PcIn(s.th, Worker)
    ensures Next(s, Finish(t, ch)).d == OpEffect(s.d, PcIn(s.th, Client(t)).op, ch)
  {
    WorkerAfter(s, Finish(t, ch));
    FinishIs(s, t, ch);
  }

  lemma {:induction false} DelivStop(s: State, t: nat, ch: Choice)
    requires Locks(s.th) && Deliv(s) && Enabled(s, Finish(t, ch)) && PcIn(s.th, Client(t)).op.OpStop?
    ensures Deliv(Next(s, Finish(t, ch)))
  {
    WorkerAfter(s, Finish(t, ch));
    FinishIs(s, t, ch);
    NotifyDelivery(Wk(s), s.d, Wk(Next(s, Finish(t, ch))), Next(s, Finish(t, ch)).d);
  }

  lemma {:induction false} NotifyDelivery(w: WPc, d: Data, w': WPc, d': Data)
    requires Delivery(w, d) && d' == d.(marks := d'.marks) && d'.marks.checkedAt == d.marks.checkedAt
    requires if w == WWaiting then w' == WWoken && d'.marks.wokenAt == |d.enqueued|
             else w' == w && d'.marks.wokenAt == d.marks.wokenAt && d'.marks.waitAt == d.marks.waitAt
    ensures Delivery(w', d')
  {
    if w == WWaiting {
      DeliveryWake(d, d');
    } else {
      DeliveryPlain(w, w, d, d');
    }
  }

  /** What a thread in a critical section, or about to enter one, relies on. */
  ghost predicate OpFine(pc: Pc, net: Net) {
    pc.OpWant? || pc.OpHold? ==>
      if pc.op.OpComplete? then pc.op.conn in net.sessions && net.sessions[pc.op.conn].handlers == 1
      else OpBeginAllowed(net, pc.op)
  }

  /** A push appends one item, and records the wake-up if the worker was waiting. */
  lemma {:induction false} PushIs(s: State, t: nat, id: SubId)
    requires Enabled(s, Push(t, id))
    ensures
      var d, item := s.d, PushedItem(s, t, id);
      var d1 := d.(buffer := d.buffer + [item], enqueued := d.enqueued + [item]);
      Next(s, Push(t, id)).d ==
        if PcOf(s, Worker) == At(WWaiting) then d1.(marks := d.marks.(wokenAt := |d1.enqueued|)) else d1
  {
  }

  lemma {:induction false} DelivPush(s: State, t: nat, id: SubId)
    requires Locks(s.th) && Deliv(s) && Enabled(s, Push(t, id))
    ensures Deliv(Next(s, Push(t, id)))
  {
    var e, item := Push(t, id), PushedItem(s, t, id);
    WorkerAfter(s, e);
    PushIs(s, t, id);
    PushDelivery(Wk(s), s.d, item, Wk(Next(s, e)), Next(s, e).d);
  }

  lemma {:induction false} PushDelivery(w: WPc, d: Data, item: Item, w': WPc, d': Data)
    requires Delivery(w, d)
    requires
      var d1 := d.(buffer := d.buffer + [item], enqueued := d.enqueued + [item]);
      if w == WWaiting then w' == WWoken && d' == d1.(marks := d.marks.(wokenAt := |d1.enqueued|))
      else w' == w && d' == d1
    ensures Delivery(w', d')
  {
    if w == WWaiting {
      DeliveryWake(d, d');
    } else {
      DeliveryPush(w, d, item);
    }
  }

  lemma {:induction false} IoIs(s: State, e: Event)
    requires Locks(s.th) && Enabled(s, e) && (e.IoDone? || e.IoFail?)
    ensures PcIn(Next(s, e).th, Worker) == PcIn(s.th, Worker)
    ensures
      var q := s.d.net.sessions[e.conn];
      Next(s, e).d == s.d.(net := SetSession(s.d.net, e.conn, if e.IoDone? then Q.Consume(q) else Q.Fail(q)))
  {
    WorkerAfter(s, e);
  }

  lemma {:induction false} DelivIo(s: State, e: Event)
    requires Locks(s.th) && Deliv(s) && Enabled(s, e) && (e.IoDone? || e.IoFail?)
    ensures Deliv(Next(s, e))
  {
    IoIs(s, e);
    var q := s.d.net.sessions[e.conn];
    DeliverySession(Wk(s), s.d, e.conn, if e.IoDone? then Q.Consume(q) else Q.Fail(q), []);
    DelivAt(Wk(s), Next(s, e));
  }

  /** What is left: steps of client threads that change neither the queue nor the connections. */
  predicate IsRemote(e: Event) {
    Actor(e) != Worker && !e.Finish? && !e.Push? && !e.IoDone? && !e.IoFail? && !e.StartFlag?
  }

  lemma {:induction false} RemoteLeaves(s: State, e: Event)
    requires Enabled(s, e) && IsRemote(e)
    ensures
      var d, d' := s.d, Next(s, e).d;
      && d'.net == d.net && d'.info == d.info && d'.popped == d.popped && d'.enqueued == d.enqueued
      && d'.buffer == d.buffer && d'.marks == d.marks
  {
  }

  lemma {:induction false} RemoteWorkerOk(w: WPc, d: Data, d': Data)
    requires WorkerOk(w, d) && d'.net == d.net && d'.info == d.info && d'.popped == d.popped
    requires d'.enqueued == d.enqueued && d'.buffer == d.buffer && d'.marks == d.marks
    ensures WorkerOk(w, d')
  {
  }

  lemma {:induction false} DelivRemote(s: State, e: Event)
    requires Locks(s.th) && Deliv(s) && Enabled(s, e) && IsRemote(e)
    ensures Deliv(Next(s, e))
  {
    var s', w := Next(s, e), Wk(s);
    WorkerAfter(s, e);
    RemoteLeaves(s, e);
    RemoteWorkerOk(w, s.d, s'.d);
    DeliveryPlain(w, w, s.d, s'.d);
  }

  lemma {:induction false} DelivStep(s: State, e: Event)
    requires Locks(s.th) && Deliv(s) && Queued(s.d) && Enabled(s, e)
    requires OpFine(PcIn(s.th, Actor(e)), s.d.net)
    ensures Deliv(Next(s, e))
  {
    if e.Work? {
      DelivWork(s, e.choice);
    } else if e == Acquire(Worker) {
      DelivTaken(s);
    } else if e == Spurious {
      DelivSpurious(s);
    } else if e.StartFlag? {
      DelivStart(s, e.t);
    } else if e.Finish? {
      DelivFinish(s, e.t, e.choice);
    } else if e.Push? {
      DelivPush(s, e.t, e.id);
    } else if e.IoDone? || e.IoFail? {
      DelivIo(s, e);
    } else {
      DelivRemote(s, e);
    }
  }
}
