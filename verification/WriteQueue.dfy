/**
  The outgoing side of one websocket session: `writeQueue_`, `bufferWrite_` and the
  asynchronous write that drains them.

  The value `Session<M>` is the specification state; the class `WebSocketSession` below it is
  the imperative form on strings, proved against the same transition functions.  `M` is the
  type of a message: strings for the class, structured messages for the notification pipeline.
 */
module WriteQueue {

  /**
    queue        messages not yet completed, the oldest first (`writeQueue_`)
    buf          messages copied into `bufferWrite_` and not consumed yet
    outstanding  async_write calls whose completion has not been delivered
    handlers     completions delivered whose locked part has not run yet
    broken       an error was delivered
    written      history: every message handed to `write`
    wire         history: every message an async_write was started for
   */
  datatype Session<M> = Session(
    queue: seq<M>, buf: seq<M>, outstanding: nat, handlers: nat, broken: bool,
    written: seq<M>, wire: seq<M>)

  function Fresh<M>(): Session<M> {
    Session([], [], 0, 0, false, [], [])
  }

  function StartWrite<M>(s: Session<M>, m: M): Session<M> {
    s.(buf := s.buf + [m], outstanding := s.outstanding + 1, wire := s.wire + [m])
  }

  /** `write`: queue the message, start sending only when the queue was empty. */
  function Write<M>(s: Session<M>, m: M): Session<M> {
    var q := s.(queue := s.queue + [m], written := s.written + [m]);
    if |q.queue| > 1 then q else StartWrite(q, m)
  }

  /** First half of a successful `onWrite`, outside `queueMutex`: drop the sent bytes. */
  function Consume<M>(s: Session<M>): Session<M>
    requires s.outstanding > 0
  {
    s.(buf := if s.buf == [] then [] else s.buf[1..], outstanding := s.outstanding - 1, handlers := s.handlers + 1)
  }

  /** Second half of a successful `onWrite`, under `queueMutex`: pop, start the next write. */
  function Complete<M>(s: Session<M>): Session<M>
    requires s.handlers > 0 && s.queue != []
  {
    var q := s.(queue := s.queue[1..], handlers := s.handlers - 1);
    if q.queue != [] then StartWrite(q, q.queue[0]) else q
  }

  /** `onWrite` with an error: nothing is popped and nothing is started. */
  function Fail<M>(s: Session<M>): Session<M>
    requires s.outstanding > 0
  {
    s.(outstanding := s.outstanding - 1, broken := true)
  }

  /**
    The protocol invariant.  A write cycle (an outstanding write, a running completion, or a
    broken session that will never run one) exists exactly while the queue is non-empty, there
    is never more than one, and what is on the wire is `written` without the waiting tail.
   */
  ghost predicate Ok<M(!new)>(s: Session<M>) {
    && s.outstanding + s.handlers + (if s.broken then 1 else 0) == (if s.queue == [] then 0 else 1)
    && (s.outstanding == 1 ==> s.buf == [s.queue[0]])
    && (s.outstanding == 0 && !s.broken ==> s.buf == [])
    && s.written == s.wire + (if s.queue == [] then [] else s.queue[1..])
    && (s.queue != [] ==> s.wire != [] && s.wire[|s.wire| - 1] == s.queue[0])
  }

  datatype Action<M> = DoWrite(m: M) | DoConsume | DoComplete | DoFail

  predicate Enabled<M>(s: Session<M>, a: Action<M>) {
    match a
    case DoWrite(_) => true
    case DoConsume => s.outstanding > 0
    case DoComplete => s.handlers > 0
    case DoFail => s.outstanding > 0
  }

  /** In a state that satisfies `Ok`, an enabled action never pops an empty queue or buffer. */
  ghost function Step<M(!new)>(s: Session<M>, a: Action<M>): (t: Session<M>)
    requires Ok(s) && Enabled(s, a)
  {
    match a
    case DoWrite(m) => Write(s, m)
    case DoConsume => Consume(s)
    case DoComplete => Complete(s)
    case DoFail => Fail(s)
  }

  lemma WriteOk<M(!new)>(s: Session<M>, m: M)
    requires Ok(s)
    ensures Ok(Write(s, m)) && s.wire <= Write(s, m).wire && (s.broken ==> Write(s, m).wire == s.wire)
  {
    var t := Write(s, m);
    if s.queue != [] {
      assert t.queue[1..] == s.queue[1..] + [m];
      assert t.queue[0] == s.queue[0];
    } else {
      assert t.queue == [m];
    }
  }

  lemma CompleteOk<M(!new)>(s: Session<M>)
    requires Ok(s) && s.handlers > 0
    ensures s.queue != [] && Ok(Complete(s)) && s.wire <= Complete(s).wire && !s.broken
  {
    var t := Complete(s);
    if t.queue != [] {
      assert s.queue[1..] == [t.queue[0]] + t.queue[1..];
      assert s.wire + s.queue[1..] == (s.wire + [t.queue[0]]) + t.queue[1..];
    }
  }

  lemma StepOk<M(!new)>(s: Session<M>, a: Action<M>)
    requires Ok(s) && Enabled(s, a)
    ensures Ok(Step(s, a)) && s.wire <= Step(s, a).wire
    ensures s.broken ==> Step(s, a).broken && Step(s, a).wire == s.wire
  {
    match a {
      case DoWrite(m) => WriteOk(s, m);
      case DoConsume =>
      case DoComplete => CompleteOk(s);
      case DoFail =>
    }
  }

  ghost predicate ValidRun<M(!new)>(s: Session<M>, run: seq<Action<M>>)
    requires Ok(s)
    decreases |run|
  {
    run == [] || (
      && Enabled(s, run[0])
      && (StepOk(s, run[0]); ValidRun(Step(s, run[0]), run[1..])))
  }

  ghost function Exec<M(!new)>(s: Session<M>, run: seq<Action<M>>): Session<M>
    requires Ok(s) && ValidRun(s, run)
    decreases |run|
  {
    if run == [] then s else (StepOk(s, run[0]); Exec(Step(s, run[0]), run[1..]))
  }

  lemma {:induction false} RunOk<M(!new)>(s: Session<M>, run: seq<Action<M>>)
    requires Ok(s) && ValidRun(s, run)
    ensures Ok(Exec(s, run))
    ensures s.wire <= Exec(s, run).wire
    ensures s.broken ==> Exec(s, run).broken && Exec(s, run).wire == s.wire
    decreases |run|
  {
    if run != [] {
      StepOk(s, run[0]);
      RunOk(Step(s, run[0]), run[1..]);
    }
  }

  /**
    The write-queue guarantee, over every interleaving of writes, completions and errors from
    a new session: at most one write is outstanding; until an error, a write cycle is active
    exactly when the queue is non-empty; and what was sent is a prefix of what was written,
    short of it by exactly the messages waiting behind the first.
   */
  lemma WriteQueueSafety<M(!new)>(run: seq<Action<M>>)
    requires Ok(Fresh<M>()) && ValidRun(Fresh<M>(), run)
    ensures
      var s := Exec(Fresh<M>(), run);
      && s.outstanding + s.handlers <= 1
      && (!s.broken ==> (s.outstanding + s.handlers == 1 <==> s.queue != []))
      && s.wire <= s.written
      && (s.outstanding == 1 ==> s.queue != [] && s.buf == [s.queue[0]])
  {
    RunOk(Fresh<M>(), run);
  }

  /** After an error nothing further is sent, whatever is written later. */
  lemma NothingSentAfterError<M(!new)>(s: Session<M>, run: seq<Action<M>>)
    requires Ok(s) && s.broken && ValidRun(s, run)
    ensures Exec(s, run).wire == s.wire && Exec(s, run).broken
  {
    RunOk(s, run);
  }

  // ------------------------------------------------------------------ imperative form

  /** The bytes of a list of messages, in order. */
  function Flatten(ms: seq<string>): string {
    if ms == [] then "" else ms[0] + Flatten(ms[1..])
  }

  /** The session object.  `wire` and `written` are the ghost histories; `pending` is `buf`. */
  class WebSocketSession {
    var writeQueue: seq<string>
    var bufferWrite: string
    var outstanding: nat
    var handlers: nat
    var broken: bool
    ghost var written: seq<string>
    ghost var wire: seq<string>
    ghost var pending: seq<string>

    ghost function View(): Session<string>
      reads this
    {
      Session(writeQueue, pending, outstanding, handlers, broken, written, wire)
    }

    ghost predicate Valid()
      reads this
    {
      Ok(View()) && bufferWrite == Flatten(pending)
    }

    constructor ()
      ensures Valid() && View() == Fresh<string>()
    {
      writeQueue, bufferWrite, outstanding, handlers, broken := [], "", 0, 0, false;
      written, wire, pending := [], [], [];
    }

    /** The async_write call: only legal while none is outstanding. */
    method StartAsyncWrite(message: string)
      requires outstanding == 0 && bufferWrite == "" && pending == []
      modifies this
      ensures View() == StartWrite(old(View()), message)
      ensures bufferWrite == Flatten(pending)
    {
      bufferWrite := bufferWrite + message;
      outstanding := outstanding + 1;
      wire := wire + [message];
      pending := pending + [message];
      assert Flatten([message]) == message + Flatten([]);
    }

    method WriteMessage(message: string)
      requires Valid()
      modifies this
      ensures Valid() && View() == Write(old(View()), message)
    {
      StepOk(View(), DoWrite(message));
      writeQueue := writeQueue + [message];
      written := written + [message];
      if |writeQueue| > 1 {
        return;
      }
      StartAsyncWrite(message);
    }

    /** Runs without `queueMutex`; `bytesTransferred` is what the completed write reports. */
    method OnWriteConsume(bytesTransferred: nat)
      requires Valid() && outstanding > 0 && bytesTransferred == |writeQueue[0]|
      modifies this
      ensures Valid() && View() == Consume(old(View()))
      ensures bufferWrite == ""
    {
      StepOk(View(), DoConsume);
      assert pending == [writeQueue[0]] && Flatten([]) == "";
      assert bufferWrite == writeQueue[0] + "" == writeQueue[0];
      bufferWrite := bufferWrite[bytesTransferred..];
      pending := pending[1..];
      outstanding, handlers := outstanding - 1, handlers + 1;
    }

    /** Runs under `queueMutex`. */
    method OnWriteLocked()
      requires Valid() && handlers > 0
      modifies this
      ensures Valid() && View() == Complete(old(View()))
    {
      StepOk(View(), DoComplete);
      writeQueue := writeQueue[1..];
      handlers := handlers - 1;
      if writeQueue != [] {
        StartAsyncWrite(writeQueue[0]);
      }
    }

    method OnWriteError()
      requires Valid() && outstanding > 0
      modifies this
      ensures Valid() && View() == Fail(old(View()))
    {
      StepOk(View(), DoFail);
      outstanding, broken := outstanding - 1, true;
    }
  }
}
