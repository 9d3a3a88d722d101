/**
  What the critical sections of the pipeline do to what others can see: the subscription table,
  the values set, the responses on the wire, and the life of the worker after a stop.
 */
module PipelineOperations {
  import opened Json
  import opened Subscriptions
  import opened Pipeline
  import opened PipelineInvariant
  import opened PipelineDelivery
  import opened PipelineSessions
  import opened PipelineTheorems
  import opened PipelineScenarios
  import Q = WriteQueue
  import St = PipelineStreams

  // ------------------------------------------------------------------ what can happen

  /** What an idle client may always start once the handler exists: nothing but these conditions stops it. */
  lemma {:induction false} IdleMayBegin(
      s: State, t: nat, ch: Change, key: Key, chan: Channel, id: SubId, c: ConnId, text: string)
    requires PcOf(s, Client(t)).Idle? && s.d.marks.started
    ensures Enabled(s, BeginSet(t, ch)) && Enabled(s, BeginOp(t, OpTree)) && Enabled(s, BeginOp(t, OpStop))
    ensures Enabled(s, BeginOp(t, OpUnsubscribe(id))) && Enabled(s, BeginOp(t, OpUnsubscribeAll(c)))
    ensures Enabled(s, BeginOp(t, OpSubscribe(key, chan))) <==>
              chan.kind == Grpc || (chan.conn in s.d.net.known && s.d.net.known[chan.conn] == chan.kind)
    ensures chan.kind != Grpc ==> Enabled(s, BeginOp(t, OpOpen(chan.kind)))
    ensures Enabled(s, BeginOp(t, OpRespond(c, text))) <==> c in s.d.net.sessions
    ensures Enabled(s, BeginOp(t, OpClose(c, chan.kind))) <==> c in s.d.net.known && s.d.net.known[c] == chan.kind
    ensures Enabled(s, Stream(t, Clear(c)))
    ensures c !in s.d.streams.closed ==> Enabled(s, Stream(t, Register(c, id))) && Enabled(s, Stream(t, Erase(c, id)))
  {
  }

  /** What the environment may do: complete or fail an outstanding write, wake a waiting worker, reject a set. */
  lemma {:induction false} EnvironmentMay(s: State, t: nat, c: ConnId, aborted: bool)
    requires Reachable(s)
    ensures PcOf(s, Client(t)).Idle? && c in s.d.net.sessions && s.d.net.sessions[c].outstanding > 0 ==>
              Enabled(s, IoDone(t, c)) && Enabled(s, IoFail(t, c, aborted))
    ensures Wk(s) == WWaiting ==> Enabled(s, Spurious)
    ensures PcOf(s, Client(t)).SetHold? ==> Enabled(s, WriteTree(t)) && Enabled(s, RejectSet(t))
  {
    ReachableInv(s);
    Known(s.th, Worker);
  }

  // ------------------------------------------------------------------ the table

  /** The subscription is in the table, under this key and on this channel. */
  predicate Stored(subs: Table, k: Key, id: SubId, chan: Channel) {
    k in subs && id in subs[k] && subs[k][id] == chan
  }

  /** A finished subscribe adds its entry and touches no other. */
  lemma {:induction false} SubscribeStores(
      s: State, t: nat, ch: Choice, key: Key, chan: Channel, k: Key, id: SubId, c: Channel)
    requires Reachable(s) && Enabled(s, Finish(t, ch)) && PcOf(s, Client(t)).op == OpSubscribe(key, chan)
    ensures Stored(Next(s, Finish(t, ch)).d.subs, k, id, c) <==>
              Stored(s.d.subs, k, id, c) || (k == key && id == ch.id && c == chan)
  {
    TableHoldsTheLive(s, ch.id);
    assert !Lives(s.d.subs, ch.id);
  }

  /** A finished unsubscribe removes the id, wherever it was, and nothing else; its record is closed. */
  lemma {:induction false} UnsubscribeRemoves(s: State, t: nat, ch: Choice, gone: SubId, k: Key, id: SubId, c: Channel)
    requires Reachable(s) && Enabled(s, Finish(t, ch)) && PcOf(s, Client(t)).op == OpUnsubscribe(gone)
    ensures
      var d' := Next(s, Finish(t, ch)).d;
      && (Stored(d'.subs, k, id, c) <==> Stored(s.d.subs, k, id, c) && id != gone)
      && (gone in s.d.info ==> gone in d'.info && d'.info[gone].until.Some?)
  {
  }

  /** What the two callers of unsubscribeAll do. */
  ghost predicate UnsubscribesAll(s: State, e: Event, conn: ConnId)
    requires Enabled(s, e)
  {
    || (e.Finish? && PcOf(s, Client(e.t)).op == OpUnsubscribeAll(conn))
    || (e.Work? && Wk(s).WMissHold? && Wk(s).item.chan.conn == conn)
  }

  lemma {:induction false} VictimsDropped(s: State, e: Event, conn: ConnId)
    requires Enabled(s, e) && UnsubscribesAll(s, e, conn)
    ensures IsVictims(s.d.subs, conn, e.choice.victims)
    ensures Next(s, e).d.subs == DropVictims(s.d.subs, e.choice.victims)
    ensures Next(s, e).d.info == Retire(s.d.info, e.choice.victims.Values, s.d.pubLog)
  {
  }

  lemma {:induction false} VictimClosed(
      subs: Table, info: map<SubId, Info>, conn: ConnId, v: map<Key, SubId>, log: seq<Change>, id: SubId)
    requires Registered(subs, info) && IsVictims(subs, conn, v) && Lives(subs, id) && !Lives(DropVictims(subs, v), id)
    ensures id in info && info[id].chan.conn == conn && Retire(info, v.Values, log)[id].until.Some?
  {
    var k :| k in subs && id in subs[k];
    assert k in DropVictims(subs, v);
    assert v[k] == id && id in OfConn(subs[k], conn) && id in v.Values;
  }

  /**
    A finished unsubscribeAll, called by a client or by the worker after a failed send, removes
    one subscription of the connection under every key that has one, and closes its record.
   */
  lemma {:induction false} UnsubscribeAllRemoves(s: State, e: Event, conn: ConnId)
    requires Reachable(s) && Enabled(s, e) && UnsubscribesAll(s, e, conn)
    ensures AfterUnsubscribeAll(s.d.subs, conn, Next(s, e).d.subs)
    ensures forall id | Lives(s.d.subs, id) && !Lives(Next(s, e).d.subs, id) ::
              && id in s.d.info && s.d.info[id].chan.conn == conn
              && id in Next(s, e).d.info && Next(s, e).d.info[id].until.Some?
  {
    ReachableInv(s);
    VictimsDropped(s, e, conn);
    var subs, info, v, log := s.d.subs, s.d.info, e.choice.victims, s.d.pubLog;
    var d' := Next(s, e).d;
    forall id | Lives(subs, id) && !Lives(d'.subs, id)
      ensures id in info && info[id].chan.conn == conn && id in d'.info && d'.info[id].until.Some?
    {
      VictimClosed(subs, info, conn, v, log, id);
    }
  }

  // ------------------------------------------------------------------ the values set

  /** The store holds, for every key, the last value set on it, and nothing for keys never set. */
  ghost predicate StoreIsLast(d: Data) {
    forall k :: if k in d.store then ByKey(d.setLog, k) != [] && d.store[k] == Last(ByKey(d.setLog, k))
                else ByKey(d.setLog, k) == []
  }

  function Last(s: seq<Json>): Json
    requires s != []
  {
    s[|s| - 1]
  }

  lemma {:induction false} StoreAfter(s: State, e: Event)
    requires Enabled(s, e)
    ensures
      var d, d' := s.d, Next(s, e).d;
      if e.WriteTree? then
        var ch := PcOf(s, Client(e.t)).ch;
        d'.store == d.store[ch.key := ch.value] && d'.setLog == d.setLog + [ch]
      else d'.store == d.store && d'.setLog == d.setLog
  {
    assert Next(s, e).d.store == Effect(s, e).store && Next(s, e).d.setLog == Effect(s, e).setLog;
    if e.Finish? {
      OpStore(s.d, PcOf(s, Client(e.t)).op, e.choice);
    }
  }

  lemma {:induction false} OpStore(d: Data, op: Op, ch: Choice)
    requires OpAllowed(d, op, ch)
    ensures OpEffect(d, op, ch).store == d.store
  {
  }

  lemma {:induction false} StoreStep(d: Data, d': Data, ch: Change)
    requires StoreIsLast(d) && d'.store == d.store[ch.key := ch.value] && d'.setLog == d.setLog + [ch]
    ensures StoreIsLast(d')
  {
    forall k {
      ByKeyAppend(d.setLog, ch, k);
    }
  }

  lemma {:induction false} StoreRun(s: State, run: seq<Event>)
    requires StoreIsLast(s.d) && ValidRun(s, run)
    ensures StoreIsLast(Exec(s, run).d)
    decreases |run|
  {
    if run != [] {
      StoreAfter(s, run[0]);
      if run[0].WriteTree? {
        StoreStep(s.d, Next(s, run[0]).d, PcOf(s, Client(run[0].t)).ch);
      }
      StoreRun(Next(s, run[0]), run[1..]);
    }
  }

  lemma {:induction false} StoreHoldsLast(s: State)
    requires Reachable(s)
    ensures StoreIsLast(s.d)
  {
    var run0 :| Reaches(Init(run0), s);
    var run :| ValidRun(Init(run0), run) && Exec(Init(run0), run) == s;
    StoreRun(Init(run0), run);
  }

  // ------------------------------------------------------------------ responses

  /** What was handed to a session never changes, it only grows. */
  lemma {:induction false} WrittenGrows(s: State, e: Event, c: ConnId)
    requires Inv(s) && Enabled(s, e) && c in s.d.net.sessions
    ensures c in Next(s, e).d.net.sessions
    ensures s.d.net.sessions[c].written <= Next(s, e).d.net.sessions[c].written
  {
    assert Next(s, e).d.net == Effect(s, e).net;
    if e.Finish? {
      OpWritten(s.d, PcOf(s, Client(e.t)).op, e.choice, c);
    } else if e.Work? {
      WorkWritten(Wk(s), s.d, e.choice, c);
    } else if !e.IoDone? && !e.IoFail? {
      NetKept(s, e);
    }
  }

  lemma {:induction false} OpWritten(d: Data, op: Op, ch: Choice, c: ConnId)
    requires OpAllowed(d, op, ch) && NetOk(d) && c in d.net.sessions
    ensures
      var net' := OpEffect(d, op, ch).net;
      && c in net'.sessions
      && net'.sessions[c].written == d.net.sessions[c].written
                                     + (if op.OpRespond? && op.conn == c then [Response(op.text)] else [])
  {
  }

  lemma {:induction false} WorkWritten(w: WPc, d: Data, ch: Choice, c: ConnId)
    requires WorkEnabled(w, d, ch) && c in d.net.sessions
    ensures
      var net' := WorkEffect(w, d, ch).net;
      && c in net'.sessions
      && net'.sessions[c].written == d.net.sessions[c].written
                                     + (if w.WQueue? && w.item.chan.conn == c then [Note(w.item)] else [])
  {
  }

  lemma {:induction false} WrittenRun(s: State, run: seq<Event>, c: ConnId)
    requires Inv(s) && ValidRun(s, run) && c in s.d.net.sessions
    ensures c in Exec(s, run).d.net.sessions
    ensures s.d.net.sessions[c].written <= Exec(s, run).d.net.sessions[c].written
    decreases |run|
  {
    if run != [] {
      WrittenGrows(s, run[0], c);
      StepInv(s, run[0]);
      WrittenRun(Next(s, run[0]), run[1..], c);
    }
  }

  /**
    A response is on the wire as soon as its session is drained, right behind everything that
    was handed to the session before it.
   */
  lemma {:induction false} ResponseDelivered(s: State, t: nat, ch: Choice, c: ConnId, text: string, s': State)
    requires Reachable(s) && Enabled(s, Finish(t, ch)) && PcOf(s, Client(t)).op == OpRespond(c, text)
    requires Reaches(Next(s, Finish(t, ch)), s') && c in s'.d.net.sessions && s'.d.net.sessions[c].queue == []
    ensures s.d.net.sessions[c].written + [Response(text)] <= s'.d.net.sessions[c].wire
  {
    ReachableInv(s);
    var s1 := Next(s, Finish(t, ch));
    FinishIs(s, t, ch);
    OpWritten(s.d, OpRespond(c, text), ch, c);
    StepInv(s, Finish(t, ch));
    var run :| ValidRun(s1, run) && Exec(s1, run) == s';
    WrittenRun(s1, run, c);
    RunInv(s1, run);
    assert Q.Ok(s'.d.net.sessions[c]);
  }

  // ------------------------------------------------------------------ connections

  /** A new connection is found at once, empty, and no other changes; a closed one is not found. */
  lemma {:induction false} OpenAndClose(s: State, t: nat, ch: Choice, c: ConnId)
    requires Inv(s) && Enabled(s, Finish(t, ch))
    ensures
      var op, net, net' := PcOf(s, Client(t)).op, s.d.net, Next(s, Finish(t, ch)).d.net;
      && (op.OpOpen? ==>
            && net'.conns == net.conns[ch.conn := op.kind] && ch.conn in net'.sessions
            && net'.sessions[ch.conn] == Q.Fresh()
            && (c in net.sessions ==> c in net'.sessions && net'.sessions[c] == net.sessions[c]))
      && (op.OpClose? ==> (c in net'.conns <==> c in net.conns && c != op.conn) && net'.sessions == net.sessions)
      && (!op.OpOpen? && !op.OpClose? ==> net'.conns == net.conns)
  {
    FinishIs(s, t, ch);
  }

  /** A write error breaks the session; unless the write was aborted its thread goes on to close the connection. */
  lemma {:induction false} WriteErrorCloses(s: State, t: nat, c: ConnId, aborted: bool)
    requires Inv(s) && Enabled(s, IoFail(t, c, aborted))
    ensures Next(s, IoFail(t, c, aborted)).d.net.sessions[c].broken
    ensures PcIn(Next(s, IoFail(t, c, aborted)).th, Client(t)) ==
              if aborted then Idle else OpWant(OpClose(c, s.d.net.known[c]))
  {
    NextThreads(s, IoFail(t, c, aborted));
  }

  // ------------------------------------------------------------------ the stop

  /** The worker can pop one more item before it looks at threadRun again. */
  function CanPop(w: WPc): nat {
    if w == WTest || w == WWantPop || w == WPop then 1 else 0
  }

  ghost predicate Stopped(s: State) {
    s.d.marks.started && !s.d.marks.threadRun
  }

  /** A finished stop clears threadRun and leaves nobody waiting. */
  lemma {:induction false} StopStops(s: State, t: nat, ch: Choice)
    requires Reachable(s) && Enabled(s, Finish(t, ch)) && PcOf(s, Client(t)).op == OpStop && s.d.marks.started
    ensures Stopped(Next(s, Finish(t, ch))) && Wk(Next(s, Finish(t, ch))) != WWaiting
  {
    ReachableInv(s);
    StopWakes(s, t, ch);
  }

  lemma {:induction false} StopWakes(s: State, t: nat, ch: Choice)
    requires Locks(s.th) && Enabled(s, Finish(t, ch)) && PcOf(s, Client(t)).op == OpStop && s.d.marks.started
    ensures Stopped(Next(s, Finish(t, ch))) && Wk(Next(s, Finish(t, ch))) != WWaiting
  {
    WorkerAfter(s, Finish(t, ch));
  }

  lemma {:induction false} StoppedStep(s: State, e: Event)
    requires Inv(s) && Stopped(s) && Enabled(s, e)
    ensures Stopped(Next(s, e))
    ensures |Next(s, e).d.popped| + CanPop(Wk(Next(s, e))) <= |s.d.popped| + CanPop(Wk(s))
  {
    StoppedFlag(s, e);
    if e.Work? {
      StoppedWork(s, e.choice);
    } else {
      PoppedKept(s, e);
      CanPopKept(s, e);
    }
  }

  lemma {:induction false} StoppedFlag(s: State, e: Event)
    requires Stopped(s) && Enabled(s, e)
    ensures Stopped(Next(s, e))
  {
    assert Effect(s, e).marks.started && !Effect(s, e).marks.threadRun;
  }

  lemma {:induction false} StoppedWork(s: State, ch: Choice)
    requires Stopped(s) && Enabled(s, Work(ch))
    ensures |Next(s, Work(ch)).d.popped| + CanPop(Wk(Next(s, Work(ch)))) <= |s.d.popped| + CanPop(Wk(s))
  {
    assert Wk(Next(s, Work(ch))) == WorkPc(Wk(s), s.d) && Next(s, Work(ch)).d == WorkEffect(Wk(s), s.d, ch);
  }

  lemma {:induction false} CanPopKept(s: State, e: Event)
    requires Inv(s) && Enabled(s, e) && !e.Work?
    ensures CanPop(Wk(Next(s, e))) == CanPop(Wk(s))
  {
    St.WorkerWaits(s, e);
    SameCanPop(Wk(s), Wk(Next(s, e)));
  }

  lemma {:induction false} SameCanPop(w: WPc, w': WPc)
    requires St.Waits(w, w')
    ensures CanPop(w') == CanPop(w)
  {
  }

  lemma {:induction false} StoppedRun(s: State, run: seq<Event>)
    requires Inv(s) && Stopped(s) && ValidRun(s, run)
    ensures Stopped(Exec(s, run))
    ensures |Exec(s, run).d.popped| + CanPop(Wk(Exec(s, run))) <= |s.d.popped| + CanPop(Wk(s))
    decreases |run|
  {
    if run != [] {
      StoppedStep(s, run[0]);
      StepInv(s, run[0]);
      StoppedRun(Next(s, run[0]), run[1..]);
    }
  }

  /** After a stop the flag stays clear, and at most one more item is ever popped. */
  lemma {:induction false} StopIsFinal(s: State, s': State)
    requires Reachable(s) && Stopped(s) && Reaches(s, s')
    ensures Stopped(s') && |s'.d.popped| <= |s.d.popped| + 1
  {
    ReachableInv(s);
    var run :| ValidRun(s, run) && Exec(s, run) == s';
    StoppedRun(s, run);
  }

  /**
    The wait has no predicate here either: a worker that has looked at threadRun before the stop
    and waits after it is never woken by the stop, so stopThread can wait for it for ever.
   */
  lemma {:induction false} StopCanHang(run0: bool) returns (s: State)
    ensures Reaches(Init(run0), s) && Stopped(s) && Wk(s) == WWaiting && s.th.owner == map[]
  {
    s := FoundEmpty(run0);
    s := RunWholeStop(Init(run0), s);
    s := Park(Init(run0), s);
  }

  lemma {:induction false} RunWholeStop(s0: State, s: State) returns (s': State)
    requires Reaches(s0, s) && Threaded(s.th, WWantWait, Idle, map[]) && s.d.marks.started
    ensures Reaches(s0, s') && Threaded(s'.th, WWantWait, Idle, map[]) && Stopped(s')
  {
    s' := RunBegin(s0, s, WWantWait, OpStop);
    s' := RunEnter(s0, s', WWantWait, OpStop);
    s' := RunStop(s0, s', WWantWait);
  }

  lemma {:induction false} RunStop(s0: State, s: State, w: WPc) returns (s': State)
    requires Reaches(s0, s) && Threaded(s.th, w, OpHold(OpStop), map[][Sub := Client(0)]) && w != WWaiting
    ensures Reaches(s0, s') && Threaded(s'.th, w, Idle, map[])
    ensures s'.d == s.d.(marks := s.d.marks.(threadRun := false))
  {
    s' := ClientStep(s0, s, w, OpHold(OpStop), map[][Sub := Client(0)], Finish(0, NoChoice), Idle,
                     s.d.(marks := s.d.marks.(threadRun := false)), map[]);
  }
}
