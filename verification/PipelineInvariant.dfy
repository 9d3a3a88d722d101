/** What every step of the notification pipeline keeps. */
module PipelineInvariant {
  import opened Basics
  import opened Json
  import opened Subscriptions
  import opened Pipeline

  // ------------------------------------------------------------------ locks

  /** Mutual exclusion: every held lock has exactly one holder, the one in the owner map. */
  ghost predicate Exclusive(held: map<Tid, set<Lock>>, owner: map<Lock, Tid>) {
    && (forall t, l | t in held && l in held[t] :: l in owner && owner[l] == t)
    && (forall l | l in owner :: owner[l] in held && l in held[owner[l]])
  }

  /** Always true: mentioning `Look(t)` makes a fact about every thread available for `t`. */
  predicate Look(t: Tid) { true }

  /** The locks held are those of the program counter; the worker is the only worker. */
  ghost predicate Counters(th: Threads) {
    && Worker in th.pcs && th.pcs.Keys == th.held.Keys
    && (forall t {:trigger Look(t)} | t in th.pcs ::
          th.held[t] == Holds(th.pcs[t]) && (th.pcs[t].At? <==> t == Worker))
  }

  ghost predicate Locks(th: Threads) {
    Exclusive(th.held, th.owner) && Counters(th)
  }

  function PcIn(th: Threads, t: Tid): Pc {
    if t in th.pcs then th.pcs[t] else Idle
  }

  lemma {:induction false} HandExclusive(
      held: map<Tid, set<Lock>>, owner: map<Lock, Tid>, t: Tid, before: set<Lock>, after: set<Lock>)
    requires Exclusive(held, owner) && before == (if t in held then held[t] else {})
    requires forall l | l in after && l !in before :: l !in owner
    ensures Exclusive(held[t := after], Hand(owner, t, before, after))
  {
    var held', owner' := held[t := after], Hand(owner, t, before, after);
    forall u, l | u in held' && l in held'[u] ensures l in owner' && owner'[l] == u {
      if u != t {
        assert owner[l] == u && l !in before;
      }
    }
    forall l | l in owner' ensures owner'[l] in held' && l in held'[owner'[l]] {
      if l !in after {
        assert owner[l] != t;
      }
    }
  }

  /** The facts about one thread. */
  lemma {:induction false} Known(th: Threads, t: Tid)
    requires Locks(th)
    ensures HeldBy(th, t) == Holds(PcIn(th, t))
    ensures PcIn(th, t).At? <==> t == Worker
  {
    assert Look(t);
  }

  lemma {:induction false} MoveLocks(th: Threads, t: Tid, pc: Pc)
    requires Locks(th) && (pc.At? <==> t == Worker)
    requires forall l | l in Holds(pc) && l !in Holds(PcIn(th, t)) :: l !in th.owner
    ensures Locks(Move(th, t, pc))
  {
    Known(th, t);
    var th' := Move(th, t, pc);
    HandExclusive(th.held, th.owner, t, HeldBy(th, t), Holds(pc));
    forall u | u in th'.pcs
      ensures th'.held[u] == Holds(th'.pcs[u]) && (th'.pcs[u].At? <==> u == Worker)
    {
      Known(th, u);
    }
  }

  /** A step takes no lock but the one its thread wanted, and that one was free. */
  lemma {:induction false} StepTakes(s: State, e: Event)
    requires Locks(s.th) && Enabled(s, e)
    ensures NextPc(s, e).At? <==> Actor(e) == Worker
    ensures e.Acquire? ==> Holds(NextPc(s, e)) == Holds(PcOf(s, Actor(e))) + {Wants(PcOf(s, Actor(e))).value}
    ensures !e.Acquire? ==> Holds(NextPc(s, e)) <= Holds(PcOf(s, Actor(e)))
  {
    Known(s.th, Actor(e));
  }

  /** `th'` is `th` after `t` went to `to`, and the worker was perhaps woken. */
  ghost predicate Moved(th: Threads, t: Tid, to: Pc, th': Threads) {
    var m := Move(th, t, to);
    && Locks(th) && Locks(m)
    && (th' == m || (PcIn(m, Worker).At? && WHolds(PcIn(m, Worker).w) == {} && th' == Move(m, Worker, At(WWoken))))
  }

  lemma {:induction false} StepMoved(s: State, e: Event)
    requires Locks(s.th) && Enabled(s, e)
    ensures Moved(s.th, Actor(e), NextPc(s, e), Next(s, e).th)
  {
    var t, to := Actor(e), NextPc(s, e);
    ActorLocks(s, e);
    NextThreads(s, e);
    if Next(s, e).th != Move(s.th, t, to) {
      StillWaiting(s, e);
    }
  }

  lemma {:induction false} ActorLocks(s: State, e: Event)
    requires Locks(s.th) && Enabled(s, e)
    ensures Locks(Move(s.th, Actor(e), NextPc(s, e)))
  {
    StepTakes(s, e);
    MoveLocks(s.th, Actor(e), NextPc(s, e));
  }

  lemma {:induction false} NextThreads(s: State, e: Event)
    requires Enabled(s, e)
    ensures
      var m := Move(s.th, Actor(e), NextPc(s, e));
      Next(s, e).th == if Notifies(s, e) && PcOf(s, Worker) == At(WWaiting) then Move(m, Worker, At(WWoken)) else m
  {
  }

  /** The worker a step wakes holds no lock, also when the step is its own spurious wake-up. */
  lemma {:induction false} StillWaiting(s: State, e: Event)
    requires Enabled(s, e) && Notifies(s, e) && PcOf(s, Worker) == At(WWaiting)
    ensures
      var m := Move(s.th, Actor(e), NextPc(s, e));
      PcIn(m, Worker).At? && WHolds(PcIn(m, Worker).w) == {}
  {
  }

  lemma {:induction false} MovedLocks(th: Threads, t: Tid, to: Pc, th': Threads)
    requires Moved(th, t, to, th')
    ensures Locks(th')
  {
    var m := Move(th, t, to);
    if th' != m {
      MoveLocks(m, Worker, At(WWoken));
    }
  }

  /** The program counter of the thread that holds a lock. */
  function HolderPc(th: Threads, l: Lock): Pc {
    if l in th.owner then PcIn(th, th.owner[l]) else Idle
  }

  lemma {:induction false} HolderIs(th: Threads, t: Tid, l: Lock)
    requires Locks(th) && l in Holds(PcIn(th, t))
    ensures l in th.owner && th.owner[l] == t && HolderPc(th, l) == PcIn(th, t)
  {
    Known(th, t);
    assert t in th.held && l in th.held[t];
  }

  lemma {:induction false} MoveHolder(th: Threads, t: Tid, pc: Pc, l: Lock)
    requires Locks(th) && Locks(Move(th, t, pc))
    ensures HolderPc(Move(th, t, pc), l) ==
              if l in Holds(pc) then pc else if l in HeldBy(th, t) then Idle else HolderPc(th, l)
    ensures l in Holds(pc) && l !in HeldBy(th, t) ==> l !in th.owner
  {
    var th' := Move(th, t, pc);
    if l in Holds(pc) {
      assert t in th'.held && l in th'.held[t];
      assert l in th.owner ==> th.owner[l] in th'.held;
    } else if l in th.owner && l !in HeldBy(th, t) {
      assert th.owner[l] != t;
    }
  }

  /** How a step changes the thread that holds a lock. */
  lemma {:induction false} MovedHolder(th: Threads, t: Tid, to: Pc, th': Threads, l: Lock)
    requires Moved(th, t, to, th')
    ensures HolderPc(th', l) ==
              if l in Holds(to) then to else if l in Holds(PcIn(th, t)) then Idle else HolderPc(th, l)
    ensures l in Holds(to) && l !in Holds(PcIn(th, t)) ==> l !in th.owner
  {
    var m := Move(th, t, to);
    assert HeldBy(th, t) == Holds(PcIn(th, t)) by {
      Known(th, t);
    }
    MoveHolder(th, t, to, l);
    if th' != m {
      WokenHolder(m, l);
    }
  }

  lemma {:induction false} WokenHolder(m: Threads, l: Lock)
    requires Locks(m) && PcIn(m, Worker).At? && WHolds(PcIn(m, Worker).w) == {}
    ensures HolderPc(Move(m, Worker, At(WWoken)), l) == HolderPc(m, l)
  {
    Known(m, Worker);
    MoveLocks(m, Worker, At(WWoken));
    MoveHolder(m, Worker, At(WWoken), l);
  }

  // ------------------------------------------------------------------ publication

  /** A set that is in the tree and not yet published: at most one, its thread has rwMutex_. */
  function Inflight(th: Threads): seq<Change> {
    if HolderPc(th, Rw).SetWrote? then [HolderPc(th, Rw).ch] else []
  }

  function TodoOf(pc: Pc): set<SubId> {
    match pc
    case PubNext(_, todo) => todo
    case PubPush(_, todo) => todo
    case _ => {}
  }

  /** The subscriptions the current publication has still to notify. */
  function Todo(th: Threads): set<SubId> {
    TodoOf(HolderPc(th, Access))
  }

  /** Everything set is published, in set order, except for the set in flight. */
  ghost predicate Logs(s: State) {
    s.d.setLog == s.d.pubLog + Inflight(s.th)
  }

  /** A thread that goes from `from` to `to` extends the logs by what that change says. */
  lemma {:induction false} LogsKept(s: State, t: Tid, to: Pc, s': State)
    requires Logs(s) && Moved(s.th, t, to, s'.th)
    requires s'.d.setLog == s.d.setLog + (if to.SetWrote? then [to.ch] else [])
    requires s'.d.pubLog == s.d.pubLog + (if PcIn(s.th, t).SetWrote? then [PcIn(s.th, t).ch] else [])
    requires to.SetWrote? ==> PcIn(s.th, t).SetHold?
    ensures Logs(s')
  {
    MovedHolder(s.th, t, to, s'.th, Rw);
    if Rw in Holds(PcIn(s.th, t)) {
      HolderIs(s.th, t, Rw);
    }
  }

  lemma {:induction false} LogChanges(s: State, e: Event)
    requires Locks(s.th) && Enabled(s, e)
    ensures NextPc(s, e).SetWrote? ==> PcOf(s, Actor(e)).SetHold?
    ensures Next(s, e).d.setLog == s.d.setLog + (if NextPc(s, e).SetWrote? then [NextPc(s, e).ch] else [])
    ensures Next(s, e).d.pubLog ==
              s.d.pubLog + (if PcOf(s, Actor(e)).SetWrote? then [PcOf(s, Actor(e)).ch] else [])
  {
    Known(s.th, Worker);
  }

  /** Only the worker pops. */
  lemma {:induction false} PoppedKept(s: State, e: Event)
    requires Enabled(s, e) && !e.Work?
    ensures Next(s, e).d.popped == s.d.popped
  {
    assert Effect(s, e).popped == s.d.popped;
  }

  lemma {:induction false} LogsStep(s: State, e: Event)
    requires Locks(s.th) && Logs(s) && Enabled(s, e)
    ensures Logs(Next(s, e))
  {
    StepMoved(s, e);
    LogChanges(s, e);
    LogsKept(s, Actor(e), NextPc(s, e), Next(s, e));
  }

  // ------------------------------------------------------------------ subscriptions

  /** The table holds exactly the subscriptions that have not been dropped, under their keys. */
  ghost predicate Registered(subs: Table, info: map<SubId, Info>) {
    && (forall k, id | k in subs && id in subs[k] ::
          id in info && info[id].key == k && info[id].chan == subs[k][id] && info[id].until.None?)
    && (forall id | id in info && info[id].until.None? ::
          info[id].key in subs && id in subs[info[id].key])
  }

  lemma {:induction false} RegisteredAdd(
      subs: Table, info: map<SubId, Info>, k: Key, id: SubId, chan: Channel, base: nat)
    requires Registered(subs, info) && id !in info
    ensures Registered(AddSub(subs, k, id, chan), info[id := Info(k, chan, base, None)])
  {
  }

  lemma {:induction false} RegisteredDrop(subs: Table, info: map<SubId, Info>, id: SubId, log: seq<Change>)
    requires Registered(subs, info)
    ensures Registered(DropSub(subs, id), Retire(info, {id}, log))
  {
  }

  lemma {:induction false} RegisteredVictims(
      subs: Table, info: map<SubId, Info>, conn: ConnId, v: map<Key, SubId>, log: seq<Change>)
    requires Registered(subs, info) && IsVictims(subs, conn, v)
    ensures Registered(DropVictims(subs, v), Retire(info, v.Values, log))
  {
    var subs', info' := DropVictims(subs, v), Retire(info, v.Values, log);
    forall k, id | k in subs' && id in subs'[k]
      ensures id in info' && info'[id].key == k && info'[id].chan == subs'[k][id] && info'[id].until.None?
    {
      assert id in subs[k];
      assert forall j | j in v :: j in subs && v[j] in subs[j] && info[v[j]].key == j;
    }
    forall id | id in info' && info'[id].until.None?
      ensures info'[id].key in subs' && id in subs'[info'[id].key]
    {
      var k := info[id].key;
      assert id !in v.Values;
      assert k in v ==> v[k] in v.Values;
    }
  }

  // ------------------------------------------------------------------ what was enqueued

  function Upto(log: seq<Json>, i: Info, pending: bool): int {
    if i.until.Some? then i.until.value else |log| - (if pending then 1 else 0)
  }

  /** `vals` are the publications from number `base` up to where the subscription has been served. */
  ghost predicate Served(log: seq<Json>, i: Info, pending: bool, vals: seq<Json>) {
    var n := Upto(log, i, pending);
    i.base <= n <= |log| && vals == log[i.base..n]
  }

  /** Every subscription was enqueued exactly the publications of its key since its base. */
  ghost predicate Counted(pubLog: seq<Change>, enqueued: seq<Item>, info: map<SubId, Info>, todo: set<SubId>) {
    forall id | id in info ::
      Served(ByKey(pubLog, info[id].key), info[id], id in todo, Values(enqueued, id))
  }

  lemma {:induction false} CountedPublish(
      pubLog: seq<Change>, enqueued: seq<Item>, subs: Table, info: map<SubId, Info>, ch: Change)
    requires Registered(subs, info) && Counted(pubLog, enqueued, info, {})
    ensures Counted(pubLog + [ch], enqueued, info, SubsAt(subs, ch.key).Keys)
  {
    forall id | id in info
      ensures Served(ByKey(pubLog + [ch], info[id].key), info[id], id in SubsAt(subs, ch.key), Values(enqueued, id))
    {
      ByKeyAppend(pubLog, ch, info[id].key);
      var log := ByKey(pubLog, info[id].key);
      assert (log + [ch.value])[..|log|] == log;
    }
  }

  lemma {:induction false} CountedPush(
      pubLog: seq<Change>, enqueued: seq<Item>, info: map<SubId, Info>, todo: set<SubId>, item: Item)
    requires Counted(pubLog, enqueued, info, todo)
    requires item.id in todo && item.id in info && info[item.id].until.None?
    requires pubLog != [] && var ch := pubLog[|pubLog| - 1]; ch.key == info[item.id].key && ch.value == item.value
    ensures Counted(pubLog, enqueued + [item], info, todo - {item.id})
  {
    forall id | id in info
      ensures Served(ByKey(pubLog, info[id].key), info[id], id in todo - {item.id}, Values(enqueued + [item], id))
    {
      ValuesAppend(enqueued, item, id);
      assert Served(ByKey(pubLog, info[id].key), info[id], id in todo, Values(enqueued, id));
      if id == item.id {
        ServedOneMore(pubLog, info[id], Values(enqueued, id), item.value);
      }
    }
  }

  lemma {:induction false} ServedOneMore(pubLog: seq<Change>, i: Info, vals: seq<Json>, v: Json)
    requires pubLog != [] && pubLog[|pubLog| - 1].key == i.key && pubLog[|pubLog| - 1].value == v
    requires i.until.None? && Served(ByKey(pubLog, i.key), i, true, vals)
    ensures Served(ByKey(pubLog, i.key), i, false, vals + [v])
  {
    var log, n := ByKey(pubLog, i.key), |ByKey(pubLog, i.key)| - 1;
    assert log[n] == v && log[i.base..n + 1] == log[i.base..n] + [log[n]];
  }

  lemma {:induction false} CountedAdd(
      pubLog: seq<Change>, enqueued: seq<Item>, info: map<SubId, Info>, id: SubId, k: Key, chan: Channel)
    requires Counted(pubLog, enqueued, info, {}) && id !in info
    requires forall i | 0 <= i < |enqueued| :: enqueued[i].id in info
    ensures Counted(pubLog, enqueued, info[id := Info(k, chan, |ByKey(pubLog, k)|, None)], {})
  {
    NeverNotified(enqueued, id);
  }

  lemma {:induction false} NeverNotified(items: seq<Item>, id: SubId)
    requires forall i | 0 <= i < |items| :: items[i].id != id
    ensures Values(items, id) == []
    decreases |items|
  {
    if items != [] {
      NeverNotified(items[..|items| - 1], id);
    }
  }

  lemma {:induction false} CountedRetire(
      pubLog: seq<Change>, enqueued: seq<Item>, info: map<SubId, Info>, ids: set<SubId>)
    requires Counted(pubLog, enqueued, info, {})
    ensures Counted(pubLog, enqueued, Retire(info, ids, pubLog), {})
  {
    var info' := Retire(info, ids, pubLog);
    forall id | id in info'
      ensures Served(ByKey(pubLog, info'[id].key), info'[id], false, Values(enqueued, id))
    {
      assert Served(ByKey(pubLog, info[id].key), info[id], id in {}, Values(enqueued, id));
    }
  }

  // ------------------------------------------------------------------ the publication loop

  /** The publication in progress is the last one logged and notifies subscribers of its key. */
  ghost predicate LoopAt(pc: Pc, d: Data) {
    pc.PubNext? || pc.PubPush? ==>
      && d.pubLog != [] && d.pubLog[|d.pubLog| - 1] == pc.ch
      && pc.todo <= SubsAt(d.subs, pc.ch.key).Keys
      && (pc.PubPush? ==> pc.todo != {})
  }

  /** Conservation: enqueued is popped followed by the buffer; items go where their id subscribed. */
  ghost predicate Queued(d: Data) {
    && d.enqueued == d.popped + d.buffer
    && (forall i | 0 <= i < |d.enqueued| ::
          d.enqueued[i].id in d.info && d.enqueued[i].chan == d.info[d.enqueued[i].id].chan)
  }

  ghost predicate Published(th: Threads, d: Data) {
    && Registered(d.subs, d.info)
    && LoopAt(HolderPc(th, Access), d)
    && Counted(d.pubLog, d.enqueued, d.info, Todo(th))
    && Queued(d)
  }

  /** Nothing that `Published` speaks of changed, except for who holds accessMutex. */
  lemma {:induction false} PublishedQuiet(th: Threads, d: Data, t: Tid, to: Pc, th': Threads, d': Data)
    requires Published(th, d) && Moved(th, t, to, th')
    requires d'.pubLog == d.pubLog && d'.subs == d.subs && d'.info == d.info && d'.enqueued == d.enqueued
    requires Queued(d')
    requires Access in Holds(PcIn(th, t)) ==> TodoOf(to) == TodoOf(PcIn(th, t))
    requires Access in Holds(to) ==> LoopAt(to, d) && TodoOf(to) == TodoOf(PcIn(th, t))
    ensures Published(th', d')
  {
    QuietHolder(th, t, to, th', d);
    SameLoop(HolderPc(th', Access), d, d');
  }

  /** The holder of accessMutex, if it is still the same or `t` itself, is as far in its loop as before. */
  lemma {:induction false} QuietHolder(th: Threads, t: Tid, to: Pc, th': Threads, d: Data)
    requires Moved(th, t, to, th') && LoopAt(HolderPc(th, Access), d)
    requires Access in Holds(PcIn(th, t)) ==> TodoOf(to) == TodoOf(PcIn(th, t))
    requires Access in Holds(to) ==> LoopAt(to, d) && TodoOf(to) == TodoOf(PcIn(th, t))
    ensures Todo(th') == Todo(th) && LoopAt(HolderPc(th', Access), d)
  {
    MovedHolder(th, t, to, th', Access);
    if Access in Holds(PcIn(th, t)) {
      HolderIs(th, t, Access);
    }
  }

  lemma {:induction false} SameLoop(pc: Pc, d: Data, d': Data)
    requires LoopAt(pc, d) && d'.pubLog == d.pubLog && d'.subs == d.subs
    ensures LoopAt(pc, d')
  {
  }

  /** publishForVSSPath gets accessMutex: the publication is logged, all its subscribers are due. */
  lemma {:induction false} PublishedStart(th: Threads, d: Data, t: Tid, to: Pc, th': Threads, d': Data)
    requires Published(th, d) && Moved(th, t, to, th') && PcIn(th, t).SetWrote?
    requires to == PubNext(PcIn(th, t).ch, SubsAt(d.subs, PcIn(th, t).ch.key).Keys)
    requires d' == d.(pubLog := d.pubLog + [PcIn(th, t).ch])
    ensures Published(th', d')
  {
    NothingDue(th, t, to, th');
    CountedPublish(d.pubLog, d.enqueued, d.subs, d.info, PcIn(th, t).ch);
    PublishedLoop(th, t, to, th', d');
  }

  lemma {:induction false} NothingDue(th: Threads, t: Tid, to: Pc, th': Threads)
    requires Moved(th, t, to, th') && Access in Holds(to) && Access !in Holds(PcIn(th, t))
    ensures Todo(th) == {}
  {
    MovedHolder(th, t, to, th', Access);
  }

  lemma {:induction false} TakenKeepsTodo(th: Threads, t: Tid, subs: Table)
    requires Locks(th) && Wants(PcIn(th, t)).Some? && !PcIn(th, t).SetWrote?
    ensures TodoOf(TakenPc(subs, PcIn(th, t))) == TodoOf(PcIn(th, t))
    ensures TakenPc(subs, PcIn(th, t)).PubPush? ==>
              PcIn(th, t) == PubNext(TakenPc(subs, PcIn(th, t)).ch, TakenPc(subs, PcIn(th, t)).todo)
    ensures !TakenPc(subs, PcIn(th, t)).PubNext?
  {
  }

  lemma {:induction false} PublishedAcquire(s: State, t: Tid)
    requires Locks(s.th) && Published(s.th, s.d) && Enabled(s, Acquire(t))
    ensures Published(Next(s, Acquire(t)).th, Next(s, Acquire(t)).d)
  {
    var s', pc, to := Next(s, Acquire(t)), PcIn(s.th, t), NextPc(s, Acquire(t));
    StepMoved(s, Acquire(t));
    if pc.SetWrote? {
      PublishedStart(s.th, s.d, t, to, s'.th, s'.d);
    } else {
      TakenKeepsTodo(s.th, t, s.d.subs);
      if pc.PubNext? {
        HolderIs(s.th, t, Access);
      }
      PublishedQuiet(s.th, s.d, t, to, s'.th, s'.d);
    }
  }

  lemma {:induction false} QueuedItem(d: Data, d': Data, item: Item)
    requires Queued(d) && d' == d.(buffer := d.buffer + [item], enqueued := d.enqueued + [item])
    requires item.id in d.info && item.chan == d.info[item.id].chan
    ensures Queued(d')
  {
    assert d.popped + (d.buffer + [item]) == (d.popped + d.buffer) + [item];
  }

  lemma {:induction false} PublishedItem(d: Data, d': Data, pc: Pc, item: Item)
    requires Registered(d.subs, d.info) && LoopAt(pc, d) && Queued(d) && pc.PubPush?
    requires Counted(d.pubLog, d.enqueued, d.info, pc.todo)
    requires d' == d.(buffer := d.buffer + [item], enqueued := d.enqueued + [item])
    requires item.id in pc.todo && item.value == pc.ch.value
    requires pc.ch.key in d.subs && item.id in d.subs[pc.ch.key] && item.chan == d.subs[pc.ch.key][item.id]
    ensures LoopAt(PubNext(pc.ch, pc.todo - {item.id}), d') && Queued(d')
    ensures Counted(d'.pubLog, d'.enqueued, d'.info, pc.todo - {item.id})
  {
    assert item.id in d.info && d.info[item.id].key == pc.ch.key && d.info[item.id].chan == item.chan;
    QueuedItem(d, d', item);
    CountedPush(d.pubLog, d.enqueued, d.info, pc.todo, item);
  }

  lemma {:induction false} PublishedLoop(th: Threads, t: Tid, to: Pc, th': Threads, d': Data)
    requires Moved(th, t, to, th') && Access in Holds(to)
    requires Registered(d'.subs, d'.info) && LoopAt(to, d') && Queued(d')
    requires Counted(d'.pubLog, d'.enqueued, d'.info, TodoOf(to))
    ensures Published(th', d')
  {
    MovedHolder(th, t, to, th', Access);
  }

  lemma {:induction false} PublishedPush(s: State, t: nat, id: SubId)
    requires Locks(s.th) && Published(s.th, s.d) && Enabled(s, Push(t, id))
    ensures Published(Next(s, Push(t, id)).th, Next(s, Push(t, id)).d)
  {
    var e := Push(t, id);
    var s', pc, item := Next(s, e), PcIn(s.th, Client(t)), PushedItem(s, t, id);
    StepMoved(s, e);
    HolderIs(s.th, Client(t), Access);
    PublishedItem(s.d, s.d.(buffer := s.d.buffer + [item], enqueued := s.d.enqueued + [item]), pc, item);
    PublishedLoop(s.th, Client(t), NextPc(s, e), s'.th, s'.d);
  }

  lemma {:induction false} PublishedOp(d: Data, op: Op, ch: Choice)
    requires Registered(d.subs, d.info) && Counted(d.pubLog, d.enqueued, d.info, {}) && Queued(d)
    requires OpAllowed(d, op, ch) && LockOf(op) == Access
    ensures
      var d' := OpEffect(d, op, ch);
      Registered(d'.subs, d'.info) && Counted(d'.pubLog, d'.enqueued, d'.info, {}) && Queued(d')
  {
    match op {
      case OpSubscribe(k, chan) =>
        RegisteredAdd(d.subs, d.info, k, ch.id, chan, |ByKey(d.pubLog, k)|);
        CountedAdd(d.pubLog, d.enqueued, d.info, ch.id, k, chan);
      case OpUnsubscribe(id) =>
        RegisteredDrop(d.subs, d.info, id, d.pubLog);
        CountedRetire(d.pubLog, d.enqueued, d.info, {id});
      case OpUnsubscribeAll(conn) =>
        PublishedVictims(d, conn, ch.victims);
    }
  }

  lemma {:induction false} PublishedVictims(d: Data, conn: ConnId, v: map<Key, SubId>)
    requires Registered(d.subs, d.info) && Counted(d.pubLog, d.enqueued, d.info, {}) && Queued(d)
    requires IsVictims(d.subs, conn, v)
    ensures
      var d' := DropChannel(d, v);
      Registered(d'.subs, d'.info) && Counted(d'.pubLog, d'.enqueued, d'.info, {}) && Queued(d')
  {
    RegisteredVictims(d.subs, d.info, conn, v, d.pubLog);
    CountedRetire(d.pubLog, d.enqueued, d.info, v.Values);
  }

  /** The thread that holds accessMutex changed the table and released it. */
  lemma {:induction false} PublishedTable(th: Threads, d: Data, t: Tid, to: Pc, th': Threads, d': Data)
    requires Moved(th, t, to, th') && Access in Holds(PcIn(th, t)) && Access !in Holds(to)
    requires Registered(d'.subs, d'.info) && Counted(d'.pubLog, d'.enqueued, d'.info, {}) && Queued(d')
    ensures Published(th', d')
  {
    MovedHolder(th, t, to, th', Access);
  }

  lemma {:induction false} OpLeaves(d: Data, op: Op, ch: Choice)
    requires OpAllowed(d, op, ch) && LockOf(op) != Access && Queued(d)
    ensures
      var d' := OpEffect(d, op, ch);
      && d'.pubLog == d.pubLog && d'.subs == d.subs && d'.info == d.info && d'.enqueued == d.enqueued
      && Queued(d')
  {
  }

  /** A critical section ends: its data effect, and the marks if it notified the worker. */
  lemma {:induction false} FinishIs(s: State, t: nat, ch: Choice)
    requires Locks(s.th) && Enabled(s, Finish(t, ch))
    ensures NextPc(s, Finish(t, ch)) == Idle
    ensures
      var d', r := Next(s, Finish(t, ch)).d, OpEffect(s.d, PcIn(s.th, Client(t)).op, ch);
      d' == r.(marks := d'.marks) && (!PcIn(s.th, Client(t)).op.OpStop? ==> d' == r)
  {
  }

  lemma {:induction false} PublishedFinish(s: State, t: nat, ch: Choice)
    requires Locks(s.th) && Published(s.th, s.d) && Enabled(s, Finish(t, ch))
    ensures Published(Next(s, Finish(t, ch)).th, Next(s, Finish(t, ch)).d)
  {
    StepMoved(s, Finish(t, ch));
    FinishIs(s, t, ch);
    FinishPublished(s.th, s.d, Client(t), Next(s, Finish(t, ch)).th, Next(s, Finish(t, ch)).d, ch);
  }

  lemma {:induction false} FinishPublished(th: Threads, d: Data, t: Tid, th': Threads, d': Data, ch: Choice)
    requires Published(th, d) && Moved(th, t, Idle, th') && PcIn(th, t).OpHold?
    requires OpAllowed(d, PcIn(th, t).op, ch) && d' == OpEffect(d, PcIn(th, t).op, ch).(marks := d'.marks)
    ensures Published(th', d')
  {
    var op := PcIn(th, t).op;
    if LockOf(op) == Access {
      HolderIs(th, t, Access);
      PublishedOp(d, op, ch);
      PublishedTable(th, d, t, Idle, th', d');
    } else {
      OpLeaves(d, op, ch);
      PublishedQuiet(th, d, t, Idle, th', d');
    }
  }

  /** Outside unsubscribeAll the worker leaves the table alone and moves items from buffer to popped. */
  lemma {:induction false} WorkLeaves(w: WPc, d: Data, ch: Choice)
    requires WorkEnabled(w, d, ch) && !w.WMissHold? && Queued(d)
    ensures
      var d' := WorkEffect(w, d, ch);
      && d'.pubLog == d.pubLog && d'.subs == d.subs && d'.info == d.info && d'.enqueued == d.enqueued
      && Queued(d')
    ensures Access !in WHolds(w) && Access !in WHolds(WorkPc(w, d))
  {
    if w.WPop? {
      assert (d.popped + [d.buffer[0]]) + d.buffer[1..] == d.popped + d.buffer;
    }
  }

  lemma {:induction false} PublishedWork(s: State, ch: Choice)
    requires Locks(s.th) && Published(s.th, s.d) && Enabled(s, Work(ch))
    ensures Published(Next(s, Work(ch)).th, Next(s, Work(ch)).d)
  {
    var e := Work(ch);
    var s', w, to := Next(s, e), Wk(s), NextPc(s, e);
    StepMoved(s, e);
    if w.WMissHold? {
      HolderIs(s.th, Worker, Access);
      PublishedVictims(s.d, w.item.chan.conn, ch.victims);
      PublishedTable(s.th, s.d, Worker, to, s'.th, s'.d);
    } else {
      WorkLeaves(w, s.d, ch);
      PublishedQuiet(s.th, s.d, Worker, to, s'.th, s'.d);
    }
  }

  predicate IsQuiet(e: Event) {
    !e.Acquire? && !e.Push? && !e.Finish? && !e.Work?
  }

  /** The other steps touch neither the table nor the queue. */
  lemma {:induction false} QuietLeaves(s: State, e: Event)
    requires Enabled(s, e) && IsQuiet(e)
    ensures
      var d, d' := s.d, Next(s, e).d;
      && d'.pubLog == d.pubLog && d'.subs == d.subs && d'.info == d.info && d'.enqueued == d.enqueued
      && d'.popped == d.popped && d'.buffer == d.buffer
  {
    var d, r := s.d, Effect(s, e);
    assert r.pubLog == d.pubLog && r.subs == d.subs && r.info == d.info && r.enqueued == d.enqueued;
    assert r.popped == d.popped && r.buffer == d.buffer;
  }

  /** And they do not take accessMutex. */
  lemma {:induction false} QuietPc(s: State, e: Event)
    requires Locks(s.th) && Enabled(s, e) && IsQuiet(e)
    ensures Access in Holds(NextPc(s, e)) ==> NextPc(s, e) == PcOf(s, Actor(e))
    ensures TodoOf(NextPc(s, e)) == TodoOf(PcOf(s, Actor(e))) == {}
  {
    Known(s.th, Actor(e));
  }

  lemma {:induction false} PublishedStep(s: State, e: Event)
    requires Locks(s.th) && Published(s.th, s.d) && Enabled(s, e)
    ensures Published(Next(s, e).th, Next(s, e).d)
  {
    if e.Acquire? {
      PublishedAcquire(s, e.tid);
    } else if e.Push? {
      PublishedPush(s, e.t, e.id);
    } else if e.Finish? {
      PublishedFinish(s, e.t, e.choice);
    } else if e.Work? {
      PublishedWork(s, e.choice);
    } else {
      StepMoved(s, e);
      QuietLeaves(s, e);
      QuietPc(s, e);
      PublishedQuiet(s.th, s.d, Actor(e), NextPc(s, e), Next(s, e).th, Next(s, e).d);
    }
  }
}
