/**
  Lock safety of the pipeline.  All threads take their locks in the order
      rwMutex_ < accessMutex < subMutex < connection maps < queueMutex
  with one exception: the worker, holding subMutex, calls unsubscribeAll, which takes
  accessMutex, when a send finds no connection.
 */
module PipelineLocks {
  import opened Subscriptions
  import opened Pipeline
  import opened PipelineInvariant
  import opened PipelineDelivery
  import opened PipelineSessions
  import opened PipelineTheorems

  function Rank(l: Lock): nat {
    match l
    case Rw => 0
    case Access => 1
    case Sub => 2
    case Conn(kind) => 3 + KindIndex(kind)
    case Queue(_) => 8
  }

  /** The worker has not found the connection of its item and is about to call unsubscribeAll. */
  predicate FailedSend(pc: Pc) {
    pc.At? && pc.w.WMiss?
  }

  /** `t` waits for a lock that `u` holds. */
  ghost predicate WaitsFor(th: Threads, t: Tid, u: Tid) {
    var w := Wants(PcIn(th, t));
    w.Some? && w.value in th.owner && th.owner[w.value] == u
  }

  /** Each thread waits for the next one. */
  ghost predicate Chain(th: Threads, ts: seq<Tid>) {
    ts != [] && forall i | 0 <= i < |ts| - 1 :: WaitsFor(th, ts[i], ts[i + 1])
  }

  /** A circular wait: a chain whose last thread waits for the first. */
  ghost predicate CircularWait(th: Threads, ts: seq<Tid>) {
    Chain(th, ts) && WaitsFor(th, ts[|ts| - 1], ts[0])
  }

  /** The one shape a circular wait can have: worker against publisher. */
  ghost predicate Deadlocked(th: Threads) {
    && FailedSend(PcIn(th, Worker))
    && HolderPc(th, Access).PubNext? && HolderPc(th, Access).todo != {}
  }

  /** Every thread but a worker in its failed-send path wants a lock above all those it holds. */
  lemma {:induction false} RespectsOrder(pc: Pc, l: Lock)
    requires Wants(pc).Some? && l in Holds(pc) && !FailedSend(pc)
    ensures Rank(l) < Rank(Wants(pc).value)
  {
  }

  /** The worker's unsubscribeAll under subMutex is the one acquisition that breaks the order. */
  lemma {:induction false} OnlyFailedSendBreaksOrder(pc: Pc)
    requires Wants(pc).Some?
    ensures (exists l :: l in Holds(pc) && Rank(Wants(pc).value) <= Rank(l)) <==> FailedSend(pc)
  {
    if FailedSend(pc) {
      assert Sub in Holds(pc) && Rank(Access) <= Rank(Sub);
    } else {
      forall l | l in Holds(pc) ensures Rank(l) < Rank(Wants(pc).value) {
        RespectsOrder(pc, l);
      }
    }
  }

  lemma {:induction false} WaitRaisesRank(th: Threads, t: Tid, u: Tid)
    requires Locks(th) && WaitsFor(th, t, u) && Wants(PcIn(th, u)).Some?
    requires !FailedSend(PcIn(th, u))
    ensures Rank(Wants(PcIn(th, t)).value) < Rank(Wants(PcIn(th, u)).value)
  {
    var l := Wants(PcIn(th, t)).value;
    Known(th, u);
    assert l in th.held[u];
    RespectsOrder(PcIn(th, u), l);
  }

  /** Along a chain of waits that meets no failed send, the wanted locks rise. */
  lemma {:induction false} ChainRises(th: Threads, ts: seq<Tid>)
    requires Locks(th) && Chain(th, ts)
    requires forall i | 0 <= i < |ts| :: Wants(PcIn(th, ts[i])).Some?
    requires forall i | 0 <= i < |ts| :: !FailedSend(PcIn(th, ts[i]))
    ensures Rank(Wants(PcIn(th, ts[0])).value) <= Rank(Wants(PcIn(th, ts[|ts| - 1])).value)
    decreases |ts|
  {
    if |ts| > 1 {
      ChainRises(th, ts[..|ts| - 1]);
      assert WaitsFor(th, ts[|ts| - 2], ts[|ts| - 2 + 1]);
      WaitRaisesRank(th, ts[|ts| - 2], ts[|ts| - 1]);
    }
  }

  /** Every thread in a circular wait wants a lock. */
  lemma {:induction false} CycleWants(th: Threads, ts: seq<Tid>, i: nat)
    requires CircularWait(th, ts) && i < |ts|
    ensures Wants(PcIn(th, ts[i])).Some?
  {
    if i < |ts| - 1 {
      assert WaitsFor(th, ts[i], ts[i + 1]);
    }
  }

  /** A thread that holds accessMutex and wants another lock is publishing. */
  lemma {:induction false} AccessHolderWants(th: Threads)
    requires Locks(th) && Access in th.owner && Wants(HolderPc(th, Access)).Some?
    ensures HolderPc(th, Access).PubNext? && HolderPc(th, Access).todo != {}
  {
    var u := th.owner[Access];
    Known(th, u);
    assert Access in th.held[u];
  }

  lemma {:induction false} CycleIsDeadlock(th: Threads, ts: seq<Tid>)
    requires Locks(th) && CircularWait(th, ts)
    ensures Deadlocked(th)
  {
    forall i | 0 <= i < |ts| ensures Wants(PcIn(th, ts[i])).Some? {
      CycleWants(th, ts, i);
    }
    if forall i | 0 <= i < |ts| :: !FailedSend(PcIn(th, ts[i])) {
      ChainRises(th, ts);
      WaitRaisesRank(th, ts[|ts| - 1], ts[0]);
      assert false;
    }
    var i :| 0 <= i < |ts| && FailedSend(PcIn(th, ts[i]));
    Known(th, ts[i]);
    var next := if i < |ts| - 1 then ts[i + 1] else ts[0];
    assert WaitsFor(th, ts[i], next);
    AccessHolderWants(th);
  }

  /**
    Lock safety, exactly: in every reachable state there is a circular wait among the threads,
    of any length, if and only if the worker is in its failed-send path wanting accessMutex
    while a publisher holds it and still has subscribers to notify.
   */
  lemma {:induction false} CircularWaitIff(s: State)
    requires Reachable(s)
    ensures (exists ts :: CircularWait(s.th, ts)) <==> Deadlocked(s.th)
  {
    ReachableInv(s);
    if Deadlocked(s.th) {
      DeadlockIsCycle(s.th);
    }
    forall ts | CircularWait(s.th, ts) ensures Deadlocked(s.th) {
      CycleIsDeadlock(s.th, ts);
    }
  }

  lemma {:induction false} DeadlockIsCycle(th: Threads)
    requires Locks(th) && Deadlocked(th)
    ensures CircularWait(th, [Worker, th.owner[Access]])
  {
    var u := th.owner[Access];
    HolderIs(th, Worker, Sub);
    assert WaitsFor(th, Worker, u) && WaitsFor(th, u, Worker);
  }

  // ------------------------------------------------------------------ no failed send

  /** No send has failed to find its connection: the worker never enters the exceptional path. */
  ghost predicate EverySendFinds(s: State, run: seq<Event>)
    requires ValidRun(s, run)
    decreases |run|
  {
    !Wk(s).WMiss? && (run == [] || EverySendFinds(Next(s, run[0]), run[1..]))
  }

  lemma {:induction false} FindsAtEnd(s: State, run: seq<Event>)
    requires ValidRun(s, run) && EverySendFinds(s, run)
    ensures !Wk(Exec(s, run)).WMiss?
    decreases |run|
  {
    if run != [] {
      FindsAtEnd(Next(s, run[0]), run[1..]);
    }
  }

  /** Over runs in which every send finds its connection the wait-for relation is acyclic. */
  lemma {:induction false} AcyclicWhileSendsFind(run0: bool, run: seq<Event>, ts: seq<Tid>)
    requires ValidRun(Init(run0), run) && EverySendFinds(Init(run0), run)
    ensures !CircularWait(Exec(Init(run0), run).th, ts)
  {
    FindsAtEnd(Init(run0), run);
    assert Reaches(Init(run0), Exec(Init(run0), run));
    CircularWaitIff(Exec(Init(run0), run));
  }

  // ------------------------------------------------------------------ progress

  /** A thread in the middle of something, and not parked in the condition variable. */
  predicate Busy(pc: Pc) {
    match pc
    case Idle => false
    case At(w) => !w.WWaiting? && !w.WExit?
    case _ => true
  }

  lemma {:induction false} FreshConn(m: map<ConnId, Kind>) returns (c: ConnId)
    ensures c !in m
  {
    c := Above(m.Keys);
  }

  lemma {:induction false} FreshId(m: map<SubId, Info>) returns (id: SubId)
    ensures id !in m
  {
    var bits := set id | id in m :: id.bits;
    var n := Above(bits);
    id := Uuid(n);
    assert id in m ==> id.bits in bits;
  }

  lemma {:induction false} Above(s: set<int>) returns (n: int)
    ensures forall x | x in s :: x < n
    decreases s
  {
    n := 0;
    if exists x :: x in s {
      var x :| x in s;
      var m := Above(s - {x});
      n := if m <= x then x + 1 else m;
      forall y | y in s ensures y < n {
        assert y == x || y in s - {x};
      }
    }
  }

  lemma {:induction false} SomeVictims(t: Table, conn: ConnId) returns (v: map<Key, SubId>)
    ensures IsVictims(t, conn, v)
  {
    v := map k | k in t && OfConn(t[k], conn) != {} :: var id :| id in OfConn(t[k], conn); id;
  }

  /** The steps left to a critical section, whatever it relies on being there. */
  lemma {:induction false} OpCanFinish(d: Data, op: Op) returns (ch: Choice)
    requires NetOk(d) && QueuesOk(d.net) && OpFine(OpHold(op), d.net)
    ensures OpAllowed(d, op, ch)
  {
    var conn := match op case OpUnsubscribeAll(c) => c case _ => 0;
    var v := SomeVictims(d.subs, conn);
    var id := FreshId(d.info);
    var c := FreshConn(d.net.known);
    ch := Choice(v, id, c);
  }

  lemma {:induction false} WorkerCanStep(w: WPc, d: Data) returns (ch: Choice)
    requires NetOk(d) && WorkerOk(w, d) && Busy(At(w)) && WWants(w).None?
    ensures WorkEnabled(w, d, ch)
  {
    var conn := match w case WMissHold(item) => item.chan.conn case _ => 0;
    var v := SomeVictims(d.subs, conn);
    ch := Choice(v, Uuid(0), 0);
  }

  /** A thread in the middle of something that wants no lock can take its next step. */
  lemma {:induction false} UnblockedSteps(s: State, t: Tid) returns (e: Event)
    requires Inv(s) && Busy(PcIn(s.th, t)) && Wants(PcIn(s.th, t)).None?
    ensures Enabled(s, e) && Actor(e) == t
  {
    Known(s.th, t);
    var pc := PcIn(s.th, t);
    match pc {
      case SetHold(_) => e := RejectSet(t.n);
      case PubNext(_, _) => e := EndPublish(t.n);
      case PubPush(ch, todo) =>
        HolderIs(s.th, t, Access);
        var id :| id in todo;
        e := Push(t.n, id);
      case SetDone => e := EndSet(t.n);
      case OpHold(op) =>
        assert Look(t);
        var ch := OpCanFinish(s.d, op);
        e := Finish(t.n, ch);
      case At(w) =>
        var ch := WorkerCanStep(w, s.d);
        e := Work(ch);
    }
  }

  /** The owner of a lock someone waits for is busy, and unless its send failed it wants a higher lock, if any. */
  lemma {:induction false} OwnerBusy(th: Threads, t: Tid, u: Tid)
    requires Locks(th) && WaitsFor(th, t, u)
    ensures Busy(PcIn(th, u))
    ensures Wants(PcIn(th, u)).Some? && !FailedSend(PcIn(th, u)) ==>
              Rank(Wants(PcIn(th, t)).value) < Rank(Wants(PcIn(th, u)).value)
  {
    var l := Wants(PcIn(th, t)).value;
    Known(th, u);
    assert l in th.held[u];
    if Wants(PcIn(th, u)).Some? && !FailedSend(PcIn(th, u)) {
      RespectsOrder(PcIn(th, u), l);
    }
  }

  lemma {:induction false} ChainCons(th: Threads, t: Tid, ts: seq<Tid>)
    requires Chain(th, ts) && WaitsFor(th, t, ts[0])
    ensures Chain(th, [t] + ts)
  {
    var all := [t] + ts;
    forall i | 0 <= i < |all| - 1 ensures WaitsFor(th, all[i], all[i + 1]) {
      assert i > 0 ==> all[i] == ts[i - 1] && all[i + 1] == ts[i - 1 + 1];
    }
  }

  lemma {:induction false} ChainSnoc(th: Threads, ts: seq<Tid>, u: Tid)
    requires Chain(th, ts) && WaitsFor(th, ts[|ts| - 1], u)
    ensures Chain(th, ts + [u])
  {
    var all := ts + [u];
    forall i | 0 <= i < |all| - 1 ensures WaitsFor(th, all[i], all[i + 1]) {
      assert i < |ts| - 1 ==> all[i] == ts[i] && all[i + 1] == ts[i + 1];
    }
  }

  /** Following the waits from any busy thread ends at one that waits for nobody, or at a failed send. */
  lemma {:induction false} EndOfWaits(th: Threads, t: Tid) returns (ts: seq<Tid>)
    requires Locks(th) && Busy(PcIn(th, t))
    ensures Chain(th, ts) && ts[0] == t && Busy(PcIn(th, ts[|ts| - 1]))
    ensures
      var pc := PcIn(th, ts[|ts| - 1]);
      Wants(pc).None? || Wants(pc).value !in th.owner || FailedSend(pc)
    decreases match Wants(PcIn(th, t)) case Some(l) => 10 - Rank(l) case None => 0
  {
    var w := Wants(PcIn(th, t));
    ts := [t];
    if w.Some? && w.value in th.owner && !FailedSend(PcIn(th, t)) {
      var u := th.owner[w.value];
      OwnerBusy(th, t, u);
      var rest := [u];
      if Wants(PcIn(th, u)).Some? && !FailedSend(PcIn(th, u)) {
        rest := EndOfWaits(th, u);
      }
      ChainCons(th, t, rest);
      ts := [t] + rest;
      assert ts[|ts| - 1] == rest[|rest| - 1];
    }
  }

  /** Outside the deadlock the thread that a failed send waits for is busy and wants no lock. */
  lemma {:induction false} MissOwner(th: Threads, u: Tid) returns (v: Tid)
    requires Locks(th) && !Deadlocked(th) && FailedSend(PcIn(th, u)) && Access in th.owner
    ensures WaitsFor(th, u, v) && Busy(PcIn(th, v)) && Wants(PcIn(th, v)).None?
  {
    v := th.owner[Access];
    Known(th, u);
    OwnerBusy(th, u, v);
    if Wants(PcIn(th, v)).Some? {
      AccessHolderWants(th);
      assert false;
    }
  }

  /** The same chain, led on past a failed send: its last thread waits for nobody. */
  lemma {:induction false} FreeEnd(th: Threads, t: Tid) returns (ts: seq<Tid>)
    requires Locks(th) && !Deadlocked(th) && Busy(PcIn(th, t))
    ensures Chain(th, ts) && ts[0] == t && Busy(PcIn(th, ts[|ts| - 1]))
    ensures
      var pc := PcIn(th, ts[|ts| - 1]);
      Wants(pc).None? || Wants(pc).value !in th.owner
  {
    ts := EndOfWaits(th, t);
    var u := ts[|ts| - 1];
    if FailedSend(PcIn(th, u)) && Access in th.owner {
      var v := MissOwner(th, u);
      ChainSnoc(th, ts, v);
      ts := ts + [v];
    }
  }

  /** The chain of waits from `t` ends at a busy thread whose next step `e` can be taken. */
  ghost predicate WaitsEnd(s: State, t: Tid, ts: seq<Tid>, e: Event) {
    && Chain(s.th, ts) && ts[0] == t
    && Enabled(s, e) && Actor(e) == ts[|ts| - 1] && Busy(PcIn(s.th, Actor(e)))
  }

  lemma {:induction false} LastMoves(s: State, t: Tid, ts: seq<Tid>) returns (e: Event)
    requires Inv(s) && Chain(s.th, ts) && ts[0] == t && Busy(PcIn(s.th, ts[|ts| - 1]))
    requires
      var w := Wants(PcIn(s.th, ts[|ts| - 1]));
      w.None? || w.value !in s.th.owner
    ensures WaitsEnd(s, t, ts, e)
  {
    var u := ts[|ts| - 1];
    if Wants(PcIn(s.th, u)).None? {
      e := UnblockedSteps(s, u);
    } else {
      e := Acquire(u);
    }
  }

  /**
    Progress of every thread: in every reachable state that is not the one deadlock, whoever is
    in the middle of something waits, over a chain of waits (of length zero if it can move
    itself), for a thread in the middle of something that can take its next step.
   */
  lemma {:induction false} NoOtherDeadlock(s: State, t: Tid)
    requires Reachable(s) && Busy(PcIn(s.th, t)) && !Deadlocked(s.th)
    ensures exists ts, e :: WaitsEnd(s, t, ts, e)
  {
    ReachableInv(s);
    var ts := FreeEnd(s.th, t);
    var e := LastMoves(s, t, ts);
  }

  // ------------------------------------------------------------------ the deadlock lasts

  lemma {:induction false} DeadlockStep(s: State, e: Event)
    requires Inv(s) && Deadlocked(s.th) && Enabled(s, e)
    ensures Deadlocked(Next(s, e).th)
    ensures Next(s, e).d.setLog == s.d.setLog && Next(s, e).d.store == s.d.store
    ensures Next(s, e).d.enqueued == s.d.enqueued && Next(s, e).d.popped == s.d.popped
  {
    var th, u := s.th, s.th.owner[Access];
    Known(th, u);
    assert Access in th.held[u];
    HolderIs(th, Worker, Sub);
    HolderIs(th, u, Rw);
    StuckThreads(s, e);
    DeadlockStays(s, e);
    IdleData(s, e);
  }

  /** If neither of the two moves and nobody gets accessMutex, they stay where they are. */
  lemma {:induction false} DeadlockStays(s: State, e: Event)
    requires Locks(s.th) && Deadlocked(s.th) && Enabled(s, e)
    requires Actor(e) != s.th.owner[Access] && Actor(e) != Worker
    requires Access !in Holds(NextPc(s, e))
    ensures Deadlocked(Next(s, e).th)
  {
    Known(s.th, Actor(e));
    StepMoved(s, e);
    MovedHolder(s.th, Actor(e), NextPc(s, e), Next(s, e).th, Access);
    PcAfter(s, e, Worker);
  }

  /** Only writes to the tree, pushes and steps of the worker change the tree and the buffer. */
  lemma {:induction false} IdleData(s: State, e: Event)
    requires Enabled(s, e) && !e.WriteTree? && !e.Push? && !e.Work?
    ensures Next(s, e).d.setLog == s.d.setLog && Next(s, e).d.store == s.d.store
    ensures Next(s, e).d.enqueued == s.d.enqueued && Next(s, e).d.popped == s.d.popped
  {
    IdleEffect(s, e);
    assert Next(s, e).d.(marks := s.d.marks) == Effect(s, e).(marks := s.d.marks);
  }

  lemma {:induction false} IdleEffect(s: State, e: Event)
    requires Enabled(s, e) && !e.WriteTree? && !e.Push? && !e.Work?
    ensures Effect(s, e).setLog == s.d.setLog && Effect(s, e).store == s.d.store
    ensures Effect(s, e).enqueued == s.d.enqueued && Effect(s, e).popped == s.d.popped
  {
    if e.Finish? {
      StoreKept(s.d, PcOf(s, Client(e.t)).op, e.choice);
    }
  }

  lemma {:induction false} StoreKept(d: Data, op: Op, ch: Choice)
    requires OpAllowed(d, op, ch)
    ensures OpEffect(d, op, ch).store == d.store
  {
  }

  /** Neither of the two can move, so nobody else gets rwMutex_ or subMutex. */
  lemma {:induction false} StuckThreads(s: State, e: Event)
    requires Locks(s.th) && Deadlocked(s.th) && Enabled(s, e)
    requires Sub in s.th.owner && s.th.owner[Sub] == Worker
    requires Rw in s.th.owner && s.th.owner[Rw] == s.th.owner[Access]
    ensures Actor(e) != s.th.owner[Access]
    ensures Actor(e) != Worker
    ensures !e.WriteTree? && !e.Push? && !e.Work?
    ensures Access !in Holds(NextPc(s, e))
  {
    var t := Actor(e);
    Known(s.th, t);
    if e.WriteTree? {
      HolderIs(s.th, t, Rw);
    }
    if e.Push? {
      HolderIs(s.th, t, Sub);
    }
  }

  lemma {:induction false} DeadlockRun(s: State, run: seq<Event>)
    requires Inv(s) && Deadlocked(s.th) && ValidRun(s, run)
    ensures Deadlocked(Exec(s, run).th)
    ensures Exec(s, run).d.setLog == s.d.setLog && Exec(s, run).d.store == s.d.store
    ensures Exec(s, run).d.enqueued == s.d.enqueued && Exec(s, run).d.popped == s.d.popped
    decreases |run|
  {
    if run != [] {
      DeadlockStep(s, run[0]);
      StepInv(s, run[0]);
      DeadlockRun(Next(s, run[0]), run[1..]);
    }
  }

  /** Once deadlocked, no set ever completes and no notification is ever popped again. */
  lemma {:induction false} DeadlockIsForever(s: State, s': State)
    requires Reachable(s) && Deadlocked(s.th) && Reaches(s, s')
    ensures Deadlocked(s'.th)
    ensures s'.d.setLog == s.d.setLog && s'.d.store == s.d.store
    ensures s'.d.enqueued == s.d.enqueued && s'.d.popped == s.d.popped
  {
    ReachableInv(s);
    var run :| ValidRun(s, run) && Exec(s, run) == s';
    DeadlockRun(s, run);
  }

  // ------------------------------------------------------------------ progress, exactly

  /** From either of the two deadlocked threads every chain of waits goes back and forth between them. */
  lemma {:induction false} StuckChain(th: Threads, ts: seq<Tid>, i: nat)
    requires Locks(th) && Deadlocked(th) && Chain(th, ts) && i < |ts|
    requires ts[0] == Worker || ts[0] == th.owner[Access]
    ensures ts[i] == Worker || ts[i] == th.owner[Access]
  {
    if i > 0 {
      StuckChain(th, ts, i - 1);
      assert WaitsFor(th, ts[i - 1], ts[i - 1 + 1]);
      HolderIs(th, Worker, Sub);
    }
  }

  lemma {:induction false} NobodyToWaitFor(s: State, t: Tid, ts: seq<Tid>, e: Event)
    requires Inv(s) && Deadlocked(s.th) && (t == Worker || t == s.th.owner[Access])
    ensures !WaitsEnd(s, t, ts, e)
  {
    if WaitsEnd(s, t, ts, e) {
      var u := s.th.owner[Access];
      StuckChain(s.th, ts, |ts| - 1);
      Known(s.th, u);
      assert Access in s.th.held[u];
      HolderIs(s.th, Worker, Sub);
      HolderIs(s.th, u, Rw);
      StuckThreads(s, e);
    }
  }

  /** So every busy thread waits for one that can move if and only if the state is not the deadlock. */
  lemma {:induction false} ProgressIff(s: State)
    requires Reachable(s)
    ensures (forall t | Busy(PcIn(s.th, t)) :: exists ts, e :: WaitsEnd(s, t, ts, e)) <==> !Deadlocked(s.th)
  {
    if Deadlocked(s.th) {
      ReachableInv(s);
      forall ts, e ensures !WaitsEnd(s, Worker, ts, e) {
        NobodyToWaitFor(s, Worker, ts, e);
      }
      assert Busy(PcIn(s.th, Worker));
    } else {
      forall t | Busy(PcIn(s.th, t)) ensures exists ts, e :: WaitsEnd(s, t, ts, e) {
        NoOtherDeadlock(s, t);
      }
    }
  }
}
