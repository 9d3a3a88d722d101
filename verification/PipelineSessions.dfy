/** The write queues inside the pipeline: one write cycle and one completion handler per session. */
module PipelineSessions {
  import opened Basics
  import opened Subscriptions
  import opened Pipeline
  import opened PipelineInvariant
  import opened PipelineDelivery
  import Q = WriteQueue

  ghost predicate QueuesOk(net: Net) {
    forall c | c in net.sessions :: Q.Ok(net.sessions[c])
  }

  ghost predicate OpsFine(th: Threads, net: Net) {
    forall t {:trigger Look(t)} :: OpFine(PcIn(th, t), net)
  }

  /** The session whose onWrite this thread is running, between consuming and popping. */
  function Completing(pc: Pc): Option<ConnId> {
    match pc
    case OpWant(OpComplete(c)) => Some(c)
    case OpHold(OpComplete(c)) => Some(c)
    case _ => None
  }

  /** No two threads run the completion handler of one session. */
  ghost predicate Sole(th: Threads) {
    forall t, u {:trigger Look(t), Look(u)} ::
      Completing(PcIn(th, t)).Some? && Completing(PcIn(th, t)) == Completing(PcIn(th, u)) ==> t == u
  }

  ghost predicate Writes(s: State) {
    QueuesOk(s.d.net) && OpsFine(s.th, s.d.net) && Sole(s.th)
  }

  // ------------------------------------------------------------------ queues

  lemma {:induction false} QueueSet(net: Net, c: ConnId, q: Q.Session<Msg>)
    requires QueuesOk(net) && Q.Ok(q)
    ensures QueuesOk(SetSession(net, c, q))
  {
  }

  lemma {:induction false} OpQueues(d: Data, op: Op, ch: Choice)
    requires QueuesOk(d.net) && OpAllowed(d, op, ch)
    ensures QueuesOk(OpEffect(d, op, ch).net)
  {
    match op {
      case OpRespond(c, text) =>
        Q.WriteOk(d.net.sessions[c], Response(text));
        QueueSet(d.net, c, Q.Write(d.net.sessions[c], Response(text)));
      case OpComplete(c) =>
        Q.CompleteOk(d.net.sessions[c]);
        QueueSet(d.net, c, Q.Complete(d.net.sessions[c]));
      case _ =>
    }
  }

  lemma {:induction false} WorkQueues(w: WPc, d: Data, ch: Choice)
    requires QueuesOk(d.net) && WorkEnabled(w, d, ch)
    ensures QueuesOk(WorkEffect(w, d, ch).net)
  {
    if w.WQueue? {
      var c := w.item.chan.conn;
      Q.WriteOk(d.net.sessions[c], Note(w.item));
      QueueSet(d.net, c, Q.Write(d.net.sessions[c], Note(w.item)));
    }
  }

  lemma {:induction false} QueuesStep(s: State, e: Event)
    requires QueuesOk(s.d.net) && Enabled(s, e)
    ensures QueuesOk(Next(s, e).d.net)
  {
    match e {
      case Finish(t, ch) => OpQueues(s.d, PcOf(s, Client(t)).op, ch);
      case Work(ch) => WorkQueues(Wk(s), s.d, ch);
      case IoDone(t, c) =>
        Q.StepOk(s.d.net.sessions[c], Q.DoConsume);
        QueueSet(s.d.net, c, Q.Consume(s.d.net.sessions[c]));
      case IoFail(t, c, _) =>
        Q.StepOk(s.d.net.sessions[c], Q.DoFail);
        QueueSet(s.d.net, c, Q.Fail(s.d.net.sessions[c]));
      case _ =>
    }
  }

  // ------------------------------------------------------------------ threads

  lemma {:induction false} PcAfter(s: State, e: Event, t: Tid)
    requires Locks(s.th) && Enabled(s, e)
    ensures PcIn(Next(s, e).th, t) == NextPc(s, e) || t != Actor(e)
    ensures t != Actor(e) ==> PcIn(Next(s, e).th, t) == PcIn(s.th, t) || PcIn(Next(s, e).th, t).At?
  {
    Known(s.th, Actor(e));
  }

  /** The session whose handler count a step changes, if any. */
  ghost function Touched(s: State, e: Event): Option<ConnId> {
    if e.IoDone? then Some(e.conn)
    else if e.Finish? then Completing(PcOf(s, Client(e.t)))
    else None
  }

  /** Connections and sessions stay, with their handler counts, except for one session's. */
  ghost predicate Grows(net: Net, net': Net, touched: Option<ConnId>) {
    && (forall c | c in net.known :: c in net'.known && net'.known[c] == net.known[c])
    && (forall c | c in net.sessions ::
          && c in net'.sessions
          && (touched != Some(c) ==> net'.sessions[c].handlers == net.sessions[c].handlers))
  }

  lemma {:induction false} OpGrows(d: Data, op: Op, ch: Choice)
    requires OpAllowed(d, op, ch) && d.net.known.Keys == d.net.sessions.Keys
    ensures Grows(d.net, OpEffect(d, op, ch).net, if op.OpComplete? then Some(op.conn) else None)
  {
  }

  lemma {:induction false} SessionGrows(net: Net, c: ConnId, q: Q.Session<Msg>, touched: Option<ConnId>)
    requires c in net.sessions && (q.handlers == net.sessions[c].handlers || touched == Some(c))
    ensures Grows(net, SetSession(net, c, q), touched)
  {
  }

  lemma {:induction false} WorkGrows(w: WPc, d: Data, ch: Choice)
    requires WorkEnabled(w, d, ch)
    ensures Grows(d.net, WorkEffect(w, d, ch).net, None)
  {
    if w.WQueue? {
      var c := w.item.chan.conn;
      SessionGrows(d.net, c, Q.Write(d.net.sessions[c], Note(w.item)), None);
    }
  }

  lemma {:induction false} NetGrows(s: State, e: Event)
    requires Locks(s.th) && NetOk(s.d) && Enabled(s, e)
    ensures Grows(s.d.net, Next(s, e).d.net, Touched(s, e))
  {
    assert Next(s, e).d.net == Effect(s, e).net;
    if e.Finish? {
      OpGrows(s.d, PcOf(s, Client(e.t)).op, e.choice);
    } else if e.Work? {
      WorkGrows(Wk(s), s.d, e.choice);
    } else if e.IoDone? || e.IoFail? {
      IoGrows(s, e);
    } else {
      NetKept(s, e);
    }
  }

  lemma {:induction false} IoGrows(s: State, e: Event)
    requires Enabled(s, e) && (e.IoDone? || e.IoFail?)
    ensures Grows(s.d.net, Effect(s, e).net, Touched(s, e))
  {
    var q := s.d.net.sessions[e.conn];
    if e.IoDone? {
      SessionGrows(s.d.net, e.conn, Q.Consume(q), Some(e.conn));
    } else {
      SessionGrows(s.d.net, e.conn, Q.Fail(q), None);
    }
  }

  lemma {:induction false} NetKept(s: State, e: Event)
    requires Enabled(s, e) && !e.Finish? && !e.Work? && !e.IoDone? && !e.IoFail?
    ensures Effect(s, e).net == s.d.net
  {
  }

  lemma {:induction false} FineGrows(pc: Pc, net: Net, net': Net, touched: Option<ConnId>)
    requires OpFine(pc, net) && Grows(net, net', touched)
    requires Completing(pc).Some? ==> Completing(pc) != touched
    ensures OpFine(pc, net')
  {
  }

  /** A step that changes a handler count is taken by the only thread that handles the session. */
  lemma {:induction false} NoOtherHandler(s: State, e: Event, t: Tid)
    requires Locks(s.th) && Writes(s) && Enabled(s, e) && t != Actor(e)
    ensures Completing(PcIn(s.th, t)).Some? ==> Completing(PcIn(s.th, t)) != Touched(s, e)
  {
    assert Look(t) && Look(Actor(e));
    if e.IoDone? {
      assert Q.Ok(s.d.net.sessions[e.conn]);
    }
  }

  lemma {:induction false} ActorFine(s: State, e: Event)
    requires Locks(s.th) && Writes(s) && NetOk(s.d) && Enabled(s, e)
    ensures OpFine(NextPc(s, e), Next(s, e).d.net)
    ensures Completing(NextPc(s, e)).Some? ==>
              e.IoDone? || Completing(NextPc(s, e)) == Completing(PcIn(s.th, Actor(e)))
  {
    assert Look(Actor(e));
    Known(s.th, Actor(e));
    if e.IoDone? {
      assert Q.Ok(s.d.net.sessions[e.conn]);
    }
  }

  lemma {:induction false} WritesStep(s: State, e: Event)
    requires Locks(s.th) && Writes(s) && NetOk(s.d) && Enabled(s, e)
    ensures Writes(Next(s, e))
  {
    QueuesStep(s, e);
    forall t ensures OpFine(PcIn(Next(s, e).th, t), Next(s, e).d.net) {
      ThreadFine(s, e, t);
    }
    forall t, u | Completing(PcIn(Next(s, e).th, t)).Some?
                  && Completing(PcIn(Next(s, e).th, t)) == Completing(PcIn(Next(s, e).th, u))
      ensures t == u
    {
      ThreadsSole(s, e, t, u);
    }
  }

  lemma {:induction false} ThreadFine(s: State, e: Event, t: Tid)
    requires Locks(s.th) && Writes(s) && NetOk(s.d) && Enabled(s, e)
    ensures OpFine(PcIn(Next(s, e).th, t), Next(s, e).d.net)
  {
    PcAfter(s, e, t);
    if t == Actor(e) {
      ActorFine(s, e);
    } else {
      assert Look(t);
      NetGrows(s, e);
      NoOtherHandler(s, e, t);
      FineGrows(PcIn(s.th, t), s.d.net, Next(s, e).d.net, Touched(s, e));
    }
  }

  lemma {:induction false} ThreadsSole(s: State, e: Event, t: Tid, u: Tid)
    requires Locks(s.th) && Writes(s) && NetOk(s.d) && Enabled(s, e)
    requires Completing(PcIn(Next(s, e).th, t)).Some?
    requires Completing(PcIn(Next(s, e).th, t)) == Completing(PcIn(Next(s, e).th, u))
    ensures t == u
  {
    PcAfter(s, e, t);
    PcAfter(s, e, u);
    ActorFine(s, e);
    assert Look(t) && Look(u) && Look(Actor(e));
    if t != u && t == Actor(e) && e.IoDone? {
      NoOtherHandler(s, e, u);
    } else if t != u && u == Actor(e) && e.IoDone? {
      NoOtherHandler(s, e, t);
    }
  }
}
