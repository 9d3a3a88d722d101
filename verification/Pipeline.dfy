/**
  The notification pipeline as a step system: client threads that set signals, subscribe,
  unsubscribe, open and close connections and complete socket writes; the one worker thread
  that drains the notification buffer; and the mutexes they take, with an explicit step for
  every acquisition.

  A thread's program counter says which locks it holds and which one it wants next.  The state
  also carries histories (what was set, published, enqueued, popped) so that theorems can speak
  about whole runs.  Subscription ids and connection ids are fresh: never used before.
 */
module Pipeline {
  import opened Basics
  import opened Json
  import opened Subscriptions
  import Q = WriteQueue

  datatype Msg = Note(item: Item) | Response(text: string)

  /** One accepted set: the key it is published under, the signal's datatype and the value. */
  datatype Change = Change(key: Key, datatyp: string, value: Json)

  /** What is known of a subscription: it sees publications number base .. until of its key. */
  datatype Info = Info(key: Key, chan: Channel, base: nat, until: Option<nat>)

  datatype Tid = Worker | Client(n: nat)

  datatype Lock = Rw | Access | Sub | Conn(kind: Kind) | Queue(conn: ConnId)

  /**
    Critical sections that take exactly one lock.  `OpTree` is any section that reads or changes
    the trees under rwMutex_ without publishing.
   */
  datatype Op =
    | OpSubscribe(key: Key, chan: Channel)
    | OpUnsubscribe(id: SubId)
    | OpUnsubscribeAll(conn: ConnId)
    | OpOpen(kind: Kind)
    | OpClose(conn: ConnId, kind: Kind)
    | OpRespond(conn: ConnId, text: string)
    | OpComplete(conn: ConnId)
    | OpTree
    | OpStop

  function LockOf(op: Op): Lock {
    match op
    case OpSubscribe(_, _) => Access
    case OpUnsubscribe(_) => Access
    case OpUnsubscribeAll(_) => Access
    case OpOpen(kind) => Conn(kind)
    case OpClose(_, kind) => Conn(kind)
    case OpRespond(c, _) => Queue(c)
    case OpComplete(c) => Queue(c)
    case OpTree => Rw
    case OpStop => Sub
  }

  /** Steps of a gRPC session on its grpcSubsMap, all without a lock. */
  datatype StreamOp = Register(conn: ConnId, id: SubId) | Erase(conn: ConnId, id: SubId) | Clear(conn: ConnId)

  /** Program counters of the worker, in subThreadRunner and SendToConnection. */
  datatype WPc =
    | WCheck
    | WTest
    | WWantPop
    | WPop
    | WWantConn(item: Item, kind: Kind)
    | WConn(item: Item, kind: Kind)
    | WWantQueue(item: Item, kind: Kind)
    | WQueue(item: Item, kind: Kind)
    | WMiss(item: Item)
    | WMissHold(item: Item)
    | WLook(item: Item)
    | WStream(item: Item)
    | WRelease
    | WWantWait
    | WHoldWait
    | WWaiting
    | WWoken
    | WResume
    | WExit

  /** Program counters of a client thread: setSignal with publishForVSSPath, or one `Op`. */
  datatype Pc =
    | Idle
    | SetWant(ch: Change)
    | SetHold(ch: Change)
    | SetWrote(ch: Change)
    | PubNext(ch: Change, todo: set<SubId>)
    | PubPush(ch: Change, todo: set<SubId>)
    | SetDone
    | OpWant(op: Op)
    | OpHold(op: Op)
    | At(w: WPc)

  function WHolds(w: WPc): set<Lock> {
    match w
    case WPop => {Sub}
    case WWantConn(_, _) => {Sub}
    case WConn(_, kind) => {Sub, Conn(kind)}
    case WWantQueue(_, kind) => {Sub, Conn(kind)}
    case WQueue(item, kind) => {Sub, Conn(kind), Queue(item.chan.conn)}
    case WMiss(_) => {Sub}
    case WMissHold(_) => {Sub, Access}
    case WLook(_) => {Sub}
    case WStream(_) => {Sub}
    case WRelease => {Sub}
    case WHoldWait => {Sub}
    case WResume => {Sub}
    case _ => {}
  }

  function Holds(pc: Pc): set<Lock> {
    match pc
    case SetHold(_) => {Rw}
    case SetWrote(_) => {Rw}
    case PubNext(_, _) => {Rw, Access}
    case PubPush(_, _) => {Rw, Access, Sub}
    case SetDone => {Rw}
    case OpHold(op) => {LockOf(op)}
    case At(w) => WHolds(w)
    case _ => {}
  }

  function WWants(w: WPc): Option<Lock> {
    match w
    case WWantPop => Some(Sub)
    case WWantConn(_, kind) => Some(Conn(kind))
    case WWantQueue(item, _) => Some(Queue(item.chan.conn))
    case WMiss(_) => Some(Access)
    case WWantWait => Some(Sub)
    case WWoken => Some(Sub)
    case _ => None
  }

  /** The lock whose acquisition is the thread's next step. */
  function Wants(pc: Pc): Option<Lock> {
    match pc
    case SetWant(_) => Some(Rw)
    case SetWrote(_) => Some(Access)
    case PubNext(_, todo) => if todo != {} then Some(Sub) else None
    case OpWant(op) => Some(LockOf(op))
    case At(w) => WWants(w)
    case _ => None
  }

  /** The threads: where each one is, the locks it holds, and the owner of each held lock. */
  datatype Threads = Threads(pcs: map<Tid, Pc>, held: map<Tid, set<Lock>>, owner: map<Lock, Tid>)

  type Sessions = map<ConnId, Q.Session<Msg>>

  /** The connection maps, the sessions, and (history) every connection ever opened. */
  datatype Net = Net(conns: map<ConnId, Kind>, sessions: Sessions, known: map<ConnId, Kind>)

  /** threadRun, and (history) the length of `enqueued` at the worker's last check, wait and wake. */
  datatype Marks = Marks(threadRun: bool, started: bool, checkedAt: nat, waitAt: nat, wokenAt: nat)

  /** The grpcSubsMap of each gRPC session, the sessions cleaned up, and (history) what was sent on streams. */
  datatype Streams = Streams(maps: map<ConnId, set<SubId>>, closed: set<ConnId>, sent: seq<Item>)

  /** The shared data, with the histories of what was set, published, enqueued and popped. */
  datatype Data = Data(
    store: map<Key, Json>, setLog: seq<Change>, pubLog: seq<Change>,
    subs: Table, info: map<SubId, Info>,
    buffer: seq<Item>, enqueued: seq<Item>, popped: seq<Item>,
    net: Net, streams: Streams, marks: Marks)

  datatype State = State(th: Threads, d: Data)

  /** `run0` is whatever `threadRun` holds before startThread assigns it. */
  function Init(run0: bool): State {
    State(Threads(map[Worker := At(WCheck)], map[Worker := {}], map[]),
          Data(map[], [], [], map[], map[], [], [], [], Net(map[], map[], map[]),
               Streams(map[], {}, []), Marks(run0, false, 0, 0, 0)))
  }

  function PcOf(s: State, t: Tid): Pc {
    if t in s.th.pcs then s.th.pcs[t] else Idle
  }

  /** Where the worker is; its program counter is always of that form. */
  function Wk(s: State): WPc {
    match PcOf(s, Worker) case At(w) => w case _ => WExit
  }

  function HeldBy(th: Threads, t: Tid): set<Lock> {
    if t in th.held then th.held[t] else {}
  }

  /** The owner map after a thread that held `before` holds `after`. */
  function Hand(owner: map<Lock, Tid>, t: Tid, before: set<Lock>, after: set<Lock>): map<Lock, Tid> {
    map l | l in (owner.Keys - before) + after :: if l in after then t else owner[l]
  }

  /** Thread `t` goes to `pc`, taking and releasing the locks that the change implies. */
  function Move(th: Threads, t: Tid, pc: Pc): Threads {
    Threads(th.pcs[t := pc], th.held[t := Holds(pc)], Hand(th.owner, t, HeldBy(th, t), Holds(pc)))
  }

  // ------------------------------------------------------------------ histories

  /** The values a log records for one key, in order. */
  function ByKey(log: seq<Change>, k: Key): seq<Json> {
    if log == [] then []
    else
      var last := log[|log| - 1];
      ByKey(log[..|log| - 1], k) + (if last.key == k then [last.value] else [])
  }

  /** The values a list of messages carries to one subscription, in order. */
  function Heard(ms: seq<Msg>, id: SubId): seq<Json> {
    if ms == [] then []
    else
      var last := ms[|ms| - 1];
      Heard(ms[..|ms| - 1], id) + (if last.Note? && last.item.id == id then [last.item.value] else [])
  }

  lemma {:induction false} ByKeyAppend(log: seq<Change>, x: Change, k: Key)
    ensures ByKey(log + [x], k) == ByKey(log, k) + (if x.key == k then [x.value] else [])
  {
    assert (log + [x])[..|log|] == log;
  }

  lemma {:induction false} HeardAppend(ms: seq<Msg>, m: Msg, id: SubId)
    ensures Heard(ms + [m], id) == Heard(ms, id) + (if m.Note? && m.item.id == id then [m.item.value] else [])
  {
    assert (ms + [m])[..|ms|] == ms;
  }

  lemma {:induction false} ByKeyPrefix(a: seq<Change>, b: seq<Change>, k: Key)
    requires a <= b
    ensures ByKey(a, k) <= ByKey(b, k)
    decreases |b|
  {
    if |a| < |b| {
      ByKeyPrefix(a, b[..|b| - 1], k);
    } else {
      assert a == b;
    }
  }

  lemma {:induction false} HeardPrefix(a: seq<Msg>, b: seq<Msg>, id: SubId)
    requires a <= b
    ensures Heard(a, id) <= Heard(b, id)
    decreases |b|
  {
    if |a| < |b| {
      HeardPrefix(a, b[..|b| - 1], id);
    } else {
      assert a == b;
    }
  }

  lemma {:induction false} ValuesPrefix(a: seq<Item>, b: seq<Item>, id: SubId)
    requires a <= b
    ensures Values(a, id) <= Values(b, id)
    decreases |b|
  {
    if |a| < |b| {
      ValuesPrefix(a, b[..|b| - 1], id);
    } else {
      assert a == b;
    }
  }

  // ------------------------------------------------------------------ steps

  /** The choices a step may leave open: hash-map order, and fresh ids. */
  datatype Choice = Choice(victims: map<Key, SubId>, id: SubId, conn: ConnId)

  datatype Event =
    | BeginSet(t: nat, ch: Change)
    | BeginOp(t: nat, op: Op)
    | Acquire(tid: Tid)
    | WriteTree(t: nat)
    | RejectSet(t: nat)
    | Push(t: nat, id: SubId)
    | EndPublish(t: nat)
    | EndSet(t: nat)
    | Finish(t: nat, choice: Choice)
    | IoDone(t: nat, conn: ConnId)
    | IoFail(t: nat, conn: ConnId, aborted: bool)
    | Work(choice: Choice)
    | Spurious
    | Stream(t: nat, streamOp: StreamOp)
    | StartFlag(t: nat)

  predicate IsWs(k: Kind) { k.WsPlain? || k.WsSsl? }

  function KindIndex(k: Kind): nat {
    match k case WsPlain => 0 case WsSsl => 1 case HttpPlain => 2 case HttpSsl => 3 case Grpc => 4
  }

  /** The order in which SendToConnection searches the four connection maps. */
  function NextKind(k: Kind): Option<Kind> {
    match k
    case WsPlain => Some(WsSsl)
    case WsSsl => Some(HttpPlain)
    case HttpPlain => Some(HttpSsl)
    case HttpSsl => None
    case Grpc => None
  }

  /** Ids that are dropped stop counting publications from here on. */
  function Retire(info: map<SubId, Info>, ids: set<SubId>, log: seq<Change>): map<SubId, Info> {
    map id | id in info ::
      if id in ids && info[id].until.None? then info[id].(until := Some(|ByKey(log, info[id].key)|))
      else info[id]
  }

  ghost predicate OpAllowed(d: Data, op: Op, ch: Choice) {
    match op
    case OpSubscribe(_, chan) => ch.id !in d.info && ChannelOk(d.net, chan)
    case OpUnsubscribeAll(conn) => IsVictims(d.subs, conn, ch.victims)
    case OpOpen(kind) => ch.conn !in d.net.known && kind != Grpc
    case OpRespond(c, _) => c in d.net.sessions
    case OpComplete(c) =>
      c in d.net.sessions && d.net.sessions[c].handlers > 0 && d.net.sessions[c].queue != []
    case _ => true
  }

  /** A channel a client can subscribe from: a gRPC one, or one that AddClient returned. */
  ghost predicate ChannelOk(net: Net, chan: Channel) {
    chan.kind == Grpc || (chan.conn in net.known && net.known[chan.conn] == chan.kind)
  }

  /** What a thread about to run `op` may rely on; only IoDone starts an OpComplete. */
  ghost predicate OpBeginAllowed(net: Net, op: Op) {
    match op
    case OpSubscribe(_, chan) => ChannelOk(net, chan)
    case OpOpen(kind) => kind != Grpc
    case OpClose(c, kind) => c in net.known && net.known[c] == kind
    case OpRespond(c, _) => c in net.sessions
    case OpComplete(_) => false
    case _ => true
  }

  /** The ids a gRPC session has a stream for. */
  function StreamIds(st: Streams, c: ConnId): set<SubId> {
    if c in st.maps then st.maps[c] else {}
  }

  function StreamEffect(st: Streams, op: StreamOp): Streams {
    match op
    case Register(c, id) => st.(maps := st.maps[c := StreamIds(st, c) + {id}])
    case Erase(c, id) => st.(maps := st.maps[c := StreamIds(st, c) - {id}])
    case Clear(c) => st.(maps := st.maps[c := {}], closed := st.closed + {c})
  }

  // Each step has two parts: what it does to the shared data (`Effect`) and where its thread
  // goes (`NextPc`), which decides the locks taken and released.

  function SetSession(net: Net, c: ConnId, q: Q.Session<Msg>): Net {
    net.(sessions := net.sessions[c := q])
  }

  function DropChannel(d: Data, victims: map<Key, SubId>): Data {
    d.(subs := DropVictims(d.subs, victims), info := Retire(d.info, victims.Values, d.pubLog))
  }

  predicate SameLogs(d: Data, r: Data) {
    r.setLog == d.setLog && r.pubLog == d.pubLog
  }

  /** The effect of a critical section. */
  ghost function OpEffect(d: Data, op: Op, ch: Choice): (r: Data)
    requires OpAllowed(d, op, ch)
    ensures SameLogs(d, r) && r.enqueued == d.enqueued && r.popped == d.popped
  {
    match op
    case OpSubscribe(k, chan) =>
      d.(subs := AddSub(d.subs, k, ch.id, chan),
         info := d.info[ch.id := Info(k, chan, |ByKey(d.pubLog, k)|, None)])
    case OpUnsubscribe(id) =>
      d.(subs := DropSub(d.subs, id), info := Retire(d.info, {id}, d.pubLog))
    case OpUnsubscribeAll(conn) => DropChannel(d, ch.victims)
    case OpOpen(kind) =>
      d.(net := Net(d.net.conns[ch.conn := kind], d.net.sessions[ch.conn := Q.Fresh()], d.net.known[ch.conn := kind]))
    case OpClose(c, _) => d.(net := d.net.(conns := d.net.conns - {c}))
    case OpRespond(c, text) => d.(net := SetSession(d.net, c, Q.Write(d.net.sessions[c], Response(text))))
    case OpComplete(c) => d.(net := SetSession(d.net, c, Q.Complete(d.net.sessions[c])))
    case OpTree => d
    case OpStop => d.(marks := d.marks.(threadRun := false))
  }

  /** The worker's steps that take no lock. */
  ghost predicate WorkEnabled(w: WPc, d: Data, ch: Choice) {
    match w
    case WCheck => true
    case WTest => true
    case WPop => d.buffer != []
    case WConn(_, _) => true
    case WQueue(item, _) => item.chan.conn in d.net.sessions
    case WMissHold(item) => IsVictims(d.subs, item.chan.conn, ch.victims)
    case WLook(_) => true
    case WStream(_) => true
    case WRelease => true
    case WHoldWait => true
    case WResume => true
    case _ => false
  }

  ghost function WorkEffect(w: WPc, d: Data, ch: Choice): (r: Data)
    requires WorkEnabled(w, d, ch)
    ensures SameLogs(d, r) && r.enqueued == d.enqueued && d.popped <= r.popped
  {
    match w
    case WTest => d.(marks := d.marks.(checkedAt := |d.enqueued|))
    case WPop => d.(buffer := d.buffer[1..], popped := d.popped + [d.buffer[0]])
    case WQueue(item, _) =>
      var c := item.chan.conn;
      d.(net := SetSession(d.net, c, Q.Write(d.net.sessions[c], Note(item))))
    case WMissHold(item) => DropChannel(d, ch.victims)
    case WStream(item) => d.(streams := d.streams.(sent := d.streams.sent + [item]))
    case WHoldWait => d.(marks := d.marks.(waitAt := |d.enqueued|))
    case _ => d
  }

  ghost function WorkPc(w: WPc, d: Data): WPc
  {
    match w
    case WCheck => if d.marks.threadRun then WTest else WExit
    case WTest => if d.buffer != [] then WWantPop else WWantWait
    case WPop =>
      if d.buffer == [] then WRelease
      else if d.buffer[0].chan.kind == Grpc then WLook(d.buffer[0])
      else WWantConn(d.buffer[0], WsPlain)
    case WConn(item, kind) =>
      if item.chan.conn in d.net.conns && d.net.conns[item.chan.conn] == kind then
        if IsWs(kind) then WWantQueue(item, kind) else WRelease
      else if NextKind(kind).Some? then WWantConn(item, NextKind(kind).value)
      else WMiss(item)
    case WLook(item) => if item.id in StreamIds(d.streams, item.chan.conn) then WStream(item) else WRelease
    case WHoldWait => WWaiting
    case WRelease => WCheck
    case WResume => WCheck
    case _ => WRelease
  }

  function WTaken(w: WPc): WPc {
    match w
    case WWantPop => WPop
    case WWantConn(item, kind) => WConn(item, kind)
    case WWantQueue(item, kind) => WQueue(item, kind)
    case WMiss(item) => WMissHold(item)
    case WWantWait => WHoldWait
    case WWoken => WResume
    case _ => w
  }

  /** Where a thread is once it has the lock it wanted. */
  function TakenPc(subs: Table, pc: Pc): Pc {
    match pc
    case SetWant(ch) => SetHold(ch)
    case SetWrote(ch) => PubNext(ch, SubsAt(subs, ch.key).Keys)
    case PubNext(ch, todo) => PubPush(ch, todo)
    case OpWant(op) => OpHold(op)
    case At(w) => At(WTaken(w))
    case _ => pc
  }

  ghost predicate Enabled(s: State, e: Event) {
    match e
    // nobody has the handler before its constructor, which calls startThread, has returned
    case BeginSet(t, _) => PcOf(s, Client(t)).Idle? && s.d.marks.started
    case BeginOp(t, op) => PcOf(s, Client(t)).Idle? && s.d.marks.started && OpBeginAllowed(s.d.net, op)
    case Acquire(t) => Wants(PcOf(s, t)).Some? && Wants(PcOf(s, t)).value !in s.th.owner
    case WriteTree(t) => PcOf(s, Client(t)).SetHold?
    case RejectSet(t) => PcOf(s, Client(t)).SetHold?
    case Push(t, id) =>
      var pc := PcOf(s, Client(t));
      pc.PubPush? && id in pc.todo && id in SubsAt(s.d.subs, pc.ch.key)
    case EndPublish(t) => PcOf(s, Client(t)).PubNext? && PcOf(s, Client(t)).todo == {}
    case EndSet(t) => PcOf(s, Client(t)).SetDone?
    case Finish(t, ch) => PcOf(s, Client(t)).OpHold? && OpAllowed(s.d, PcOf(s, Client(t)).op, ch)
    case IoDone(t, c) =>
      PcOf(s, Client(t)).Idle? && c in s.d.net.sessions && s.d.net.sessions[c].outstanding > 0
    case IoFail(t, c, _) =>
      && PcOf(s, Client(t)).Idle? && c in s.d.net.known
      && c in s.d.net.sessions && s.d.net.sessions[c].outstanding > 0
    case Work(ch) => PcOf(s, Worker).At? && WorkEnabled(Wk(s), s.d, ch)
    case Spurious => PcOf(s, Worker) == At(WWaiting)
    case Stream(t, op) =>
      PcOf(s, Client(t)).Idle? && s.d.marks.started && (op.Register? || op.Erase? ==> op.conn !in s.d.streams.closed)
    case StartFlag(t) => PcOf(s, Client(t)).Idle? && !s.d.marks.started
  }

  function Actor(e: Event): Tid {
    match e
    case Acquire(t) => t
    case Work(_) => Worker
    case Spurious => Worker
    case _ => Client(e.t)
  }

  ghost function PushedItem(s: State, t: nat, id: SubId): Item
    requires Enabled(s, Push(t, id))
  {
    var ch := PcOf(s, Client(t)).ch;
    Item(id, s.d.subs[ch.key][id], ch.datatyp, ch.value)
  }

  ghost function Effect(s: State, e: Event): (r: Data)
    requires Enabled(s, e)
    ensures !e.WriteTree? && !e.Acquire? ==> SameLogs(s.d, r)
    ensures !e.Push? ==> r.enqueued == s.d.enqueued
  {
    var d := s.d;
    match e
    case Acquire(t) =>
      // publishForVSSPath fixes its place among the publications when it gets accessMutex
      if PcOf(s, t).SetWrote? then d.(pubLog := d.pubLog + [PcOf(s, t).ch]) else d
    case WriteTree(t) =>
      var ch := PcOf(s, Client(t)).ch;
      d.(store := d.store[ch.key := ch.value], setLog := d.setLog + [ch])
    case Push(t, id) =>
      var item := PushedItem(s, t, id);
      d.(buffer := d.buffer + [item], enqueued := d.enqueued + [item])
    case Finish(t, ch) => OpEffect(d, PcOf(s, Client(t)).op, ch)
    case IoDone(t, c) => d.(net := SetSession(d.net, c, Q.Consume(d.net.sessions[c])))
    case IoFail(t, c, _) => d.(net := SetSession(d.net, c, Q.Fail(d.net.sessions[c])))
    case Work(ch) => WorkEffect(Wk(s), d, ch)
    case Stream(_, op) => d.(streams := StreamEffect(d.streams, op))
    case StartFlag(_) => d.(marks := d.marks.(threadRun := true, started := true))
    case _ => d
  }

  ghost function NextPc(s: State, e: Event): Pc
    requires Enabled(s, e)
  {
    match e
    case BeginSet(t, ch) => SetWant(ch)
    case BeginOp(t, op) => OpWant(op)
    case Acquire(t) => TakenPc(s.d.subs, PcOf(s, t))
    case WriteTree(t) => SetWrote(PcOf(s, Client(t)).ch)
    case RejectSet(_) => Idle
    case Push(t, id) => PubNext(PcOf(s, Client(t)).ch, PcOf(s, Client(t)).todo - {id})
    case EndPublish(_) => SetDone
    case EndSet(_) => Idle
    case Finish(_, _) => Idle
    case IoDone(_, c) => OpWant(OpComplete(c))
    case IoFail(_, c, aborted) => if aborted then Idle else OpWant(OpClose(c, s.d.net.known[c]))
    case Work(ch) => At(WorkPc(Wk(s), s.d))
    case Spurious => At(WWoken)
    case Stream(_, _) => Idle
    case StartFlag(_) => Idle
  }

  /** c.notify_one, after a push and in stopThread; a spurious wake-up has the same effect. */
  ghost predicate Notifies(s: State, e: Event) {
    e.Spurious? || e.Push? || (e.Finish? && PcOf(s, Client(e.t)) == OpHold(OpStop))
  }

  /** A notified worker leaves its wait, if it is in one. */
  ghost function Next(s: State, e: Event): State
    requires Enabled(s, e)
  {
    var th, d := Move(s.th, Actor(e), NextPc(s, e)), Effect(s, e);
    if Notifies(s, e) && PcOf(s, Worker) == At(WWaiting) then
      State(Move(th, Worker, At(WWoken)), d.(marks := d.marks.(wokenAt := |d.enqueued|)))
    else State(th, d)
  }

  ghost predicate ValidRun(s: State, run: seq<Event>)
    decreases |run|
  {
    run == [] || (Enabled(s, run[0]) && ValidRun(Next(s, run[0]), run[1..]))
  }

  ghost function Exec(s: State, run: seq<Event>): State
    requires ValidRun(s, run)
    decreases |run|
  {
    if run == [] then s else Exec(Next(s, run[0]), run[1..])
  }

  /** Some run leads from one state to the other. */
  ghost predicate Reaches(s: State, s': State) {
    exists run :: ValidRun(s, run) && Exec(s, run) == s'
  }

  /** Some run from start-up, whatever threadRun held before, leads to the state. */
  ghost predicate Reachable(s: State) {
    exists run0 :: Reaches(Init(run0), s)
  }
}
