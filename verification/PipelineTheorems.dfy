/** The guarantees of the notification pipeline, over every run. */
module PipelineTheorems {
  import opened Basics
  import opened Json
  import opened Subscriptions
  import opened Pipeline
  import opened PipelineInvariant
  import opened PipelineDelivery
  import opened PipelineSessions
  import Q = WriteQueue

  ghost predicate Inv(s: State) {
    Locks(s.th) && Logs(s) && Published(s.th, s.d) && Deliv(s) && Writes(s)
  }

  lemma {:induction false} InitInv(run0: bool)
    ensures Inv(Init(run0))
  {
    var s := Init(run0);
    forall t ensures PcIn(s.th, t) == if t == Worker then At(WCheck) else Idle {
    }
    assert s.th.pcs.Keys == {Worker} == s.th.held.Keys;
    assert Locks(s.th) by {
      assert s.th.held[Worker] == Holds(At(WCheck));
    }
    assert Published(s.th, s.d);
    assert Delivery(WCheck, s.d);
    forall t ensures OpFine(PcIn(s.th, t), s.d.net) && Completing(PcIn(s.th, t)).None? {
    }
  }

  lemma {:induction false} StepInv(s: State, e: Event)
    requires Inv(s) && Enabled(s, e)
    ensures Inv(Next(s, e))
  {
    StepMoved(s, e);
    MovedLocks(s.th, Actor(e), NextPc(s, e), Next(s, e).th);
    LogsStep(s, e);
    PublishedStep(s, e);
    assert Look(Actor(e));
    DelivStep(s, e);
    WritesStep(s, e);
  }

  lemma {:induction false} RunInv(s: State, run: seq<Event>)
    requires Inv(s) && ValidRun(s, run)
    ensures Inv(Exec(s, run))
    decreases |run|
  {
    if run != [] {
      StepInv(s, run[0]);
      RunInv(Next(s, run[0]), run[1..]);
    }
  }

  lemma {:induction false} ReachesInv(s: State, s': State)
    requires Inv(s) && Reaches(s, s')
    ensures Inv(s')
  {
    var run :| ValidRun(s, run) && Exec(s, run) == s';
    RunInv(s, run);
  }

  lemma {:induction false} ReachableInv(s: State)
    requires Reachable(s)
    ensures Inv(s)
  {
    var run0 :| Reaches(Init(run0), s);
    InitInv(run0);
    ReachesInv(Init(run0), s);
  }

  // ------------------------------------------------------------------ order

  /** What was sent for a subscription is what was set on its key, in set order, from its base on. */
  lemma {:induction false} WireFollowsSets(s: State, id: SubId)
    requires Inv(s) && id in s.d.info && IsWs(s.d.info[id].chan.kind)
    ensures
      var i := s.d.info[id];
      && i.chan.conn in s.d.net.sessions
      && i.base <= |ByKey(s.d.setLog, i.key)|
      && Heard(s.d.net.sessions[i.chan.conn].wire, id) <= ByKey(s.d.setLog, i.key)[i.base..]
  {
    var d, i := s.d, s.d.info[id];
    assert ChannelOk(d.net, i.chan) && Reached(Wk(s), d, id);
    assert Q.Ok(d.net.sessions[i.chan.conn]);
    assert Served(ByKey(d.pubLog, i.key), i, id in Todo(s.th), Values(d.enqueued, id));
    PrefixChain(d, d.net.sessions[i.chan.conn], i, id, id in Todo(s.th));
  }

  lemma {:induction false} PrefixChain(d: Data, q: Q.Session<Msg>, i: Info, id: SubId, pending: bool)
    requires q.wire <= q.written && Heard(q.written, id) <= Values(d.popped, id)
    requires d.popped <= d.enqueued && d.pubLog <= d.setLog
    requires Served(ByKey(d.pubLog, i.key), i, pending, Values(d.enqueued, id))
    ensures i.base <= |ByKey(d.setLog, i.key)| && Heard(q.wire, id) <= ByKey(d.setLog, i.key)[i.base..]
  {
    HeardPrefix(q.wire, q.written, id);
    ValuesPrefix(d.popped, d.enqueued, id);
    ByKeyPrefix(d.pubLog, d.setLog, i.key);
  }

  /** A subscription keeps its key, channel and base for ever. */
  lemma {:induction false} InfoKept(s: State, e: Event, id: SubId)
    requires Enabled(s, e) && id in s.d.info
    ensures id in Next(s, e).d.info
    ensures Next(s, e).d.info[id].(until := None) == s.d.info[id].(until := None)
    ensures s.d.info[id].until.Some? ==> Next(s, e).d.info[id] == s.d.info[id]
  {
    assert Next(s, e).d.info == Effect(s, e).info;
    if e.Finish? {
      OpInfoKept(s.d, PcOf(s, Client(e.t)).op, e.choice, id);
    } else if e.Work? {
      WorkInfoKept(Wk(s), s.d, e.choice, id);
    } else {
      OtherInfoKept(s, e);
    }
  }

  lemma {:induction false} OtherInfoKept(s: State, e: Event)
    requires Enabled(s, e) && !e.Finish? && !e.Work?
    ensures Effect(s, e).info == s.d.info
  {
  }

  lemma {:induction false} WorkInfoKept(w: WPc, d: Data, ch: Choice, id: SubId)
    requires WorkEnabled(w, d, ch) && id in d.info
    ensures
      var info' := WorkEffect(w, d, ch).info;
      && id in info' && info'[id].(until := None) == d.info[id].(until := None)
      && (d.info[id].until.Some? ==> info'[id] == d.info[id])
  {
  }

  lemma {:induction false} OpInfoKept(d: Data, op: Op, ch: Choice, id: SubId)
    requires OpAllowed(d, op, ch) && id in d.info
    ensures
      var info' := OpEffect(d, op, ch).info;
      && id in info' && info'[id].(until := None) == d.info[id].(until := None)
      && (d.info[id].until.Some? ==> info'[id] == d.info[id])
  {
  }

  lemma {:induction false} RunInfoKept(s: State, run: seq<Event>, id: SubId)
    requires ValidRun(s, run) && id in s.d.info
    ensures id in Exec(s, run).d.info
    ensures Exec(s, run).d.info[id].(until := None) == s.d.info[id].(until := None)
    ensures s.d.info[id].until.Some? ==> Exec(s, run).d.info[id] == s.d.info[id]
    decreases |run|
  {
    if run != [] {
      InfoKept(s, run[0], id);
      RunInfoKept(Next(s, run[0]), run[1..], id);
    }
  }

  lemma {:induction false} ReachesInfoKept(s: State, s': State, id: SubId)
    requires Reaches(s, s') && id in s.d.info
    ensures id in s'.d.info && s'.d.info[id].(until := None) == s.d.info[id].(until := None)
    ensures s.d.info[id].until.Some? ==> s'.d.info[id] == s.d.info[id]
  {
    var run :| ValidRun(s, run) && Exec(s, run) == s';
    RunInfoKept(s, run, id);
  }

  /** The base of a new subscription: every set so far, but for one in flight on the same key. */
  lemma {:induction false} SubscribeBase(s: State, t: nat, ch: Choice)
    requires Inv(s) && Enabled(s, Finish(t, ch)) && PcOf(s, Client(t)).op.OpSubscribe?
    ensures
      var op, s' := PcOf(s, Client(t)).op, Next(s, Finish(t, ch));
      && ch.id in s'.d.info
      && var i := s'.d.info[ch.id];
      && i.key == op.key && i.chan == op.chan && i.until.None?
      && i.base == |ByKey(s.d.setLog, op.key)| - |ByKey(Inflight(s.th), op.key)|
  {
    var k := PcOf(s, Client(t)).op.key;
    var f := Inflight(s.th);
    if f == [] {
      assert s.d.setLog == s.d.pubLog;
    } else {
      ByKeyAppend(s.d.pubLog, f[0], k);
      ByKeyAppend([], f[0], k);
      assert f == [] + [f[0]];
    }
  }

  /**
    End-to-end order.  In every interleaving, from the moment a websocket client subscribes,
    what is put on the wire for that subscription is a prefix of the values set on its
    (path, attribute) since then, in set order.  A set that is already in the tree but not yet
    published when the subscription enters the table counts as set since then.
   */
  lemma {:induction false} EndToEndOrder(s: State, t: nat, key: Key, chan: Channel, ch: Choice, s1: State, s': State)
    requires Reachable(s)
    requires PcOf(s, Client(t)) == OpHold(OpSubscribe(key, chan)) && IsWs(chan.kind)
    requires Enabled(s, Finish(t, ch)) && s1 == Next(s, Finish(t, ch)) && Reaches(s1, s')
    ensures
      var base := |ByKey(s.d.setLog, key)| - |ByKey(Inflight(s.th), key)|;
      && chan.conn in s'.d.net.sessions
      && 0 <= base <= |ByKey(s'.d.setLog, key)|
      && Heard(s'.d.net.sessions[chan.conn].wire, ch.id) <= ByKey(s'.d.setLog, key)[base..]
  {
    ReachableInv(s);
    SubscribeBase(s, t, ch);
    StepInv(s, Finish(t, ch));
    ReachesInv(s1, s');
    ReachesInfoKept(s1, s', ch.id);
    WireFollowsSets(s', ch.id);
  }

  /** A live websocket subscription on an open connection. */
  ghost predicate LiveOnWire(s: State, id: SubId) {
    && id in s.d.info
    && var i := s.d.info[id];
    && IsWs(i.chan.kind) && i.until.None? && i.chan.conn in s.d.net.conns && i.chan.conn in s.d.net.sessions
  }

  /** And everything for it is delivered: no set in flight, no item buffered, in hand or queued. */
  ghost predicate Settled(s: State, id: SubId) {
    && LiveOnWire(s, id) && s.d.net.sessions[s.d.info[id].chan.conn].queue == []
    && s.d.buffer == [] && InHand(Wk(s), id) == []
    && Rw !in s.th.owner && Access !in s.th.owner
  }

  /**
    Nothing is lost on an open connection: once no set is in flight, the buffer is empty, the
    worker has nothing in hand and the session's queue is drained, a live subscription has been
    sent every value set since its base.
   */
  lemma {:induction false} QuiescentDelivery(s: State, id: SubId)
    requires Reachable(s) && Settled(s, id)
    ensures
      var i := s.d.info[id];
      && i.base <= |ByKey(s.d.setLog, i.key)|
      && Heard(s.d.net.sessions[i.chan.conn].wire, id) == ByKey(s.d.setLog, i.key)[i.base..]
  {
    ReachableInv(s);
    var d, i := s.d, s.d.info[id];
    assert Reached(Wk(s), d, id);
    var q := d.net.sessions[i.chan.conn];
    assert Q.Ok(q) && q.written == q.wire;
    assert d.popped == d.enqueued && d.setLog == d.pubLog;
    assert Served(ByKey(d.pubLog, i.key), i, id in Todo(s.th), Values(d.enqueued, id));
  }

  // ------------------------------------------------------------------ subscriptions

  /**
    Each id lives under at most one key, and it is in the table exactly until it is dropped.
   */
  lemma {:induction false} TableHoldsTheLive(s: State, id: SubId)
    requires Reachable(s)
    ensures UniqueIds(s.d.subs)
    ensures Lives(s.d.subs, id) <==> id in s.d.info && s.d.info[id].until.None?
  {
    ReachableInv(s);
    LiveIff(s.d.subs, s.d.info, id);
  }

  lemma {:induction false} LiveIff(subs: Table, info: map<SubId, Info>, id: SubId)
    requires Registered(subs, info)
    ensures UniqueIds(subs)
    ensures Lives(subs, id) <==> id in info && info[id].until.None?
  {
    if id in info && info[id].until.None? {
      assert info[id].key in subs && id in subs[info[id].key];
    }
    if Lives(subs, id) {
      var k :| k in subs && id in subs[k];
    }
    forall k, l, i | k in subs && l in subs && i in subs[k] && i in subs[l] ensures k == l {
      assert info[i].key == k && info[i].key == l;
    }
  }

  /**
    Every publication enqueues one item for each subscription stored under its key and none for
    others: what was enqueued for a subscription is, in order and without gap or repetition, the
    publications of its key from its base up to its drop (or up to now, but for a publication
    whose loop has still to reach it).
   */
  lemma {:induction false} EnqueuedExactly(s: State, id: SubId)
    requires Reachable(s) && id in s.d.info
    ensures
      var i := s.d.info[id];
      var log := ByKey(s.d.pubLog, i.key);
      var n := if i.until.Some? then i.until.value else if id in Todo(s.th) then |log| - 1 else |log|;
      i.base <= n <= |log| && Values(s.d.enqueued, id) == log[i.base..n]
  {
    ReachableInv(s);
    assert Served(ByKey(s.d.pubLog, s.d.info[id].key), s.d.info[id], id in Todo(s.th), Values(s.d.enqueued, id));
  }

  /** Once dropped, a subscription is never enqueued again: only what is buffered can still come. */
  lemma {:induction false} NothingEnqueuedAfterUnsubscribe(s: State, s': State, id: SubId)
    requires Reachable(s) && Reaches(s, s') && id in s.d.info && s.d.info[id].until.Some?
    ensures Values(s'.d.enqueued, id) == Values(s.d.enqueued, id)
  {
    var i := s.d.info[id];
    ReachableInv(s);
    ReachesInv(s, s');
    ReachesInfoKept(s, s', id);
    var run :| ValidRun(s, run) && Exec(s, run) == s';
    RunPubLog(s, run);
    ByKeyPrefix(s.d.pubLog, s'.d.pubLog, i.key);
    ServedOnce(ByKey(s.d.pubLog, i.key), ByKey(s'.d.pubLog, i.key), i, id in Todo(s.th), id in Todo(s'.th),
               Values(s.d.enqueued, id), Values(s'.d.enqueued, id));
  }

  lemma {:induction false} ServedOnce(
      log: seq<Json>, log': seq<Json>, i: Info, p: bool, p': bool, vals: seq<Json>, vals': seq<Json>)
    requires log <= log' && i.until.Some? && Served(log, i, p, vals) && Served(log', i, p', vals')
    ensures vals == vals'
  {
  }

  lemma {:induction false} RunPubLog(s: State, run: seq<Event>)
    requires Inv(s) && ValidRun(s, run)
    ensures s.d.pubLog <= Exec(s, run).d.pubLog
    decreases |run|
  {
    if run != [] {
      StepInv(s, run[0]);
      LogChanges(s, run[0]);
      RunPubLog(Next(s, run[0]), run[1..]);
    }
  }

  // ------------------------------------------------------------------ queue and worker

  /** Conservation, and the pops are safe although the emptiness test holds no lock. */
  lemma {:induction false} QueueConservation(s: State)
    requires Reachable(s)
    ensures s.d.enqueued == s.d.popped + s.d.buffer
    ensures Wk(s) == WPop ==> s.d.buffer != []
  {
    ReachableInv(s);
  }

  /**
    Worker progress.  While the worker waits, the buffer holds exactly the items pushed between
    its last emptiness check and the start of the wait; everything enqueued before the
    wake-up that preceded that check has been popped.
   */
  lemma {:induction false} WaitingMeansDrained(s: State)
    requires Reachable(s) && Wk(s) == WWaiting
    ensures
      var d := s.d;
      && d.marks.wokenAt <= d.marks.checkedAt <= d.marks.waitAt == |d.enqueued|
      && d.popped == d.enqueued[..d.marks.checkedAt]
      && d.buffer == d.enqueued[d.marks.checkedAt..d.marks.waitAt]
  {
    ReachableInv(s);
    DrainedBuffer(s.d);
  }

  lemma {:induction false} DrainedBuffer(d: Data)
    requires WorkerOk(WWaiting, d) && Queued(d)
    ensures d.marks.wokenAt <= d.marks.checkedAt <= d.marks.waitAt == |d.enqueued|
    ensures d.popped == d.enqueued[..d.marks.checkedAt]
    ensures d.buffer == d.enqueued[d.marks.checkedAt..d.marks.waitAt]
  {
  }

  // ------------------------------------------------------------------ bufferWrite_

  /** The session whose bufferWrite_ a step reads or writes. */
  ghost function TouchesBuffer(s: State, e: Event): Option<ConnId>
    requires Enabled(s, e)
  {
    match e
    case IoDone(_, c) => Some(c)
    case Finish(t, _) =>
      (match PcOf(s, Client(t)).op
       case OpRespond(c, _) => if s.d.net.sessions[c].queue == [] then Some(c) else None
       case OpComplete(c) => Some(c)
       case _ => None)
    case Work(_) =>
      (match Wk(s)
       case WQueue(item, _) =>
         if s.d.net.sessions[item.chan.conn].queue == [] then Some(item.chan.conn) else None
       case _ => None)
    case _ => None
  }

  /** No other step changes what is in the buffer of a session. */
  lemma {:induction false} TouchesAll(s: State, e: Event, c: ConnId)
    requires Enabled(s, e) && c in s.d.net.sessions && c in Next(s, e).d.net.sessions
    requires NetOk(s.d) && TouchesBuffer(s, e) != Some(c)
    ensures Next(s, e).d.net.sessions[c].buf == s.d.net.sessions[c].buf
  {
    assert Next(s, e).d.net == Effect(s, e).net;
    if e.Finish? {
      OpBuffers(s.d, PcOf(s, Client(e.t)).op, e.choice, c);
    } else if !e.Work? && !e.IoDone? && !e.IoFail? {
      NetKept(s, e);
    }
  }

  lemma {:induction false} OpBuffers(d: Data, op: Op, ch: Choice, c: ConnId)
    requires OpAllowed(d, op, ch) && NetOk(d) && c in d.net.sessions
    requires op.OpRespond? && op.conn == c ==> d.net.sessions[c].queue != []
    requires !(op.OpComplete? && op.conn == c)
    ensures c in OpEffect(d, op, ch).net.sessions
    ensures OpEffect(d, op, ch).net.sessions[c].buf == d.net.sessions[c].buf
  {
  }

  /** A step that touches the buffer under queueMutex holds that lock. */
  lemma {:induction false} TouchLocked(s: State, e: Event)
    requires Inv(s) && Enabled(s, e) && TouchesBuffer(s, e).Some? && !e.IoDone?
    ensures Queue(TouchesBuffer(s, e).value) in Holds(PcIn(s.th, Actor(e)))
    ensures s.d.net.sessions[TouchesBuffer(s, e).value].outstanding == 0
  {
    assert Look(Actor(e));
    assert Q.Ok(s.d.net.sessions[TouchesBuffer(s, e).value]);
  }

  /**
    bufferWrite_ is consumed outside queueMutex, and still two threads are never both about to
    touch the buffer of one session; a completion finds exactly one write to complete.
   */
  lemma {:induction false} BufferNotShared(s: State, e: Event, f: Event)
    requires Reachable(s) && Enabled(s, e) && Enabled(s, f)
    requires TouchesBuffer(s, e).Some? && TouchesBuffer(s, e) == TouchesBuffer(s, f)
    requires !(e.IoDone? && f.IoDone?)
    ensures Actor(e) == Actor(f)
  {
    ReachableInv(s);
    var c := TouchesBuffer(s, e).value;
    if e.IoDone? {
      TouchLocked(s, f);
      assert false;
    } else if f.IoDone? {
      TouchLocked(s, e);
      assert false;
    } else {
      TouchLocked(s, e);
      TouchLocked(s, f);
      HolderIs(s.th, Actor(e), Queue(c));
      HolderIs(s.th, Actor(f), Queue(c));
    }
  }

  /** At most one write is outstanding, so at most one completion can be delivered at a time. */
  lemma {:induction false} OneWriteOutstanding(s: State, c: ConnId)
    requires Reachable(s) && c in s.d.net.sessions
    ensures
      var q := s.d.net.sessions[c];
      && q.outstanding + q.handlers <= 1
      && (!q.broken ==> (q.outstanding + q.handlers == 1 <==> q.queue != []))
      && q.wire <= q.written
  {
    ReachableInv(s);
    assert Q.Ok(s.d.net.sessions[c]);
  }
}
