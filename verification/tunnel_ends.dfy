/** How a session begins and ends across the three programs, in every run of the system: it is opened as its client
    asked, and what ends it at one node reaches the others. */
module TunnelEnds {
  import opened Frames
  import opened Options
  import opened Tunnel
  import P = ProxyLink
  import W = WorkerLink
  import B = Broker
  import BP = BrokerProofs
  import BA = BrokerAnswers
  import PE = ProxyEnds
  import WE = WorkerEnds

  // ---- the broker's answers, in the system -------------------------------------------------------

  /** No session is lost silently towards its worker, in every run of the system: the session is in the table, or a
      close frame for it was put on its worker's queue or is about to be, or the worker is removed or sent the close
      itself, or an event that opened, relayed or closed the session had its send or its write refused. */
  lemma WorkerIsTold(es: seq<Event>, id: Id)
    ensures var b := Run(es).broker;
            id in b.past.stored ==>
              var x := b.past.stored[id];
              || id in b.sessions
              || Has(At(b.toWorker, x.worker), id, CMD_CLOSE)
              || (id, x.worker) in b.asyncCloses
              || x.worker in b.reg.removed
              || Has(At(b.fromWorker, x.worker), id, CMD_CLOSE)
              || exists k: nat :: BA.RefusedAt(BrokerEvents(es), k, id, x)
  {
    BrokerPart(es);
    BA.WorkerIsTold(BrokerEvents(es), id);
  }

  // ---- one node at a time ------------------------------------------------------------------------

  /** The event that a system event is to proxy connection `p`, if it is one. */
  function ProxyEvent(s: State, e: Event, p: nat): Option<P.Event> {
    match e
    case ProxyStep(q, pe) => if q == p && !pe.Receive? && !(pe.Open? && pe.id in s.used) then Some(pe) else None
    case ProxyReceives(q) =>
      var queue, n := At(s.broker.toProxy, p), |Px(s, p).recv|;
      if q == p && n < |queue| then Some(P.Receive(queue[n])) else None
    case _ => None
  }

  lemma ProxyMoves(s: State, e: Event, p: nat)
    ensures var pe := ProxyEvent(s, e, p);
            Px(Next(s, e), p) == if pe.None? then Px(s, p) else P.Next(Px(s, p), pe.value)
  {
  }

  /** The event that a system event is to worker link `w`, if it is one. */
  function WorkerEvent(s: State, e: Event, w: nat): Option<W.Event> {
    match e
    case WorkerStep(v, we) => if v == w && !we.Receive? then Some(we) else None
    case WorkerReceives(v, choice) =>
      var queue, n := At(s.broker.toWorker, w), |Wk(s, w).recv|;
      if v == w && n < |queue| then Some(W.Receive(queue[n], choice)) else None
    case _ => None
  }

  lemma WorkerMoves(s: State, e: Event, w: nat)
    ensures var we := WorkerEvent(s, e, w);
            Wk(Next(s, e), w) == if we.None? then Wk(s, w) else W.Next(Wk(s, w), we.value)
  {
  }

  lemma LastEvent(es: seq<Event>, k: nat)
    requires k < |es|
    ensures Run(es[..k + 1]) == Next(Run(es[..k]), es[k])
  {
    assert es[..k + 1][..k] == es[..k];
  }

  // ---- what the proxy does -----------------------------------------------------------------------

  /** What a proxy connection received is of ids that some connection has opened. */
  lemma HeardIsUsed(s: State, p: nat, id: Id)
    requires Inv(s) && Mentions(Px(s, p).recv, id)
    ensures id in s.used
  {
    var b := s.broker;
    var m :| m in Px(s, p).recv && IsFor(m, id);
    MemberOfPrefix(Px(s, p).recv, At(b.toProxy, p), m);
    assert B.Inv(b, id) && Mentions(At(b.toProxy, p), id);
    RequestedIsUsed(s, id);
  }

  lemma RequestedIsUsed(s: State, id: Id)
    requires Links(s) && Ids(s)
    ensures id in s.broker.past.requested ==> id in s.used
  {
    if id in s.broker.past.requested {
      assert HeardOf(s.broker, id);
      var q, ask :| ask in At(s.broker.fromProxy, q) && ask.Text? && ask.req.id == id;
      MemberOfPrefix(At(s.broker.fromProxy, q), Px(s, q).sent, ask);
    }
  }

  lemma {:induction false} SessionsSettle(es: seq<Event>, p: nat, id: Id)
    ensures PE.Settled(Px(Run(es), p), id)
  {
    if es != [] {
      var n := |es| - 1;
      SessionsSettle(es[..n], p, id);
      RunKeeps(es[..n]);
      StepSettles(Run(es[..n]), es[n], p, id);
    }
  }

  lemma StepSettles(s: State, e: Event, p: nat, id: Id)
    requires Inv(s) && PE.Settled(Px(s, p), id)
    ensures PE.Settled(Px(Next(s, e), p), id)
  {
    var pe := ProxyEvent(s, e, p);
    ProxyMoves(s, e, p);
    if pe.Some? {
      if Mentions(Px(s, p).recv, id) { HeardIsUsed(s, p, id); }
      assert P.Inv(Px(s, p), id);
      PE.EventSettles(Px(s, p), pe.value, id);
    }
  }

  /** In every run, once the handler of a session is over the broker was sent a close for it, or had sent a close or
      an error itself, or the connection is closed, unless a data frame met the full queue of the session, which
      then ends without a word. */
  lemma HandlerEndIsAnnounced(es: seq<Event>, p: nat, id: Id)
    requires id in Px(Run(es), p).sess && Px(Run(es), p).sess[id].phase == P.Finished
    ensures var x := Px(Run(es), p);
            || Has(x.sent, id, CMD_CLOSE)
            || Has(x.recv, id, CMD_CLOSE) || Has(x.recv, id, CMD_ERROR)
            || x.done
            || PE.Overflowed(x, id)
  {
    SessionsSettle(es, p, id);
  }

  /** In every run, a close or an error frame that a proxy connection received has closed and unlisted its session,
      and a confirmation has reached the session's slot, unless the session was closed first. */
  lemma ProxyObeys(es: seq<Event>, p: nat, id: Id)
    requires id in Px(Run(es), p).sess
    ensures var x := Px(Run(es), p);
            && (Has(x.recv, id, CMD_CLOSE) || Has(x.recv, id, CMD_ERROR) ==> x.sess[id].done && id !in x.table)
            && (Has(x.recv, id, CMD_CONNECTED) ==>
                  x.sess[id].slot == P.Connected || x.sess[id].confirmed || x.sess[id].done)
  {
    SessionsSettle(es, p, id);
  }

  lemma {:induction false} SentOnlyIfDone(es: seq<Event>, p: nat, id: Id)
    ensures PE.SentIfDone(Px(Run(es), p), id)
  {
    if es != [] {
      var n := |es| - 1;
      SentOnlyIfDone(es[..n], p, id);
      RunKeeps(es[..n]);
      StepSays(Run(es[..n]), es[n], p, id);
    }
  }

  lemma StepSays(s: State, e: Event, p: nat, id: Id)
    requires Inv(s) && PE.SentIfDone(Px(s, p), id)
    ensures PE.SentIfDone(Px(Next(s, e), p), id)
    ensures id in Px(s, p).sess ==> PE.SaysOnlyAtEnd(Px(s, p), Px(Next(s, e), p), id)
  {
    var x, pe := Px(s, p), ProxyEvent(s, e, p);
    ProxyMoves(s, e, p);
    assert P.Inv(x, id);
    if pe.Some? {
      if id in x.sess {
        assert !pe.value.Open? && !pe.value.Receive? && !pe.value.CloseConn? ==> P.Inv(x, pe.value.id);
        PE.EventSays(x, pe.value, id);
      } else {
        PE.OpensUnsaid(x, pe.value, id);
      }
    }
  }

  lemma {:induction false} QuietStays(es: seq<Event>, k: nat, p: nat, id: Id)
    requires k <= |es| && id in Px(Run(es[..k]), p).sess && Px(Run(es[..k]), p).sess[id].done
    requires !Has(Px(Run(es[..k]), p).sent, id, CMD_CLOSE)
    ensures id in Px(Run(es), p).sess && Px(Run(es), p).sess[id].done && !Has(Px(Run(es), p).sent, id, CMD_CLOSE)
  {
    if k == |es| {
      assert es[..k] == es;
    } else {
      var n := |es| - 1;
      assert es[..n][..k] == es[..k];
      QuietStays(es[..n], k, p, id);
      RunKeeps(es[..n]);
      StepSays(Run(es[..n]), es[n], p, id);
    }
  }

  /** The next message of a proxy connection is a data frame of a listed session whose queue is full. */
  ghost predicate OverflowIsNext(s: State, p: nat, id: Id) {
    var queue, x := At(s.broker.toProxy, p), Px(s, p);
    && |x.recv| < |queue| && IsData(queue[|x.recv|], id)
    && id in x.table && id in x.sess && |x.sess[id].inward.queue| >= P.DATA_QUEUE
  }

  /** In every run, a session that is dropped because its queue is full is closed, and for the rest of the run its
      proxy sends no close of it: the broker and the worker keep their part of the session. */
  lemma OverflowIsSilent(es: seq<Event>, k: nat, p: nat, id: Id)
    requires k < |es| && es[k] == ProxyReceives(p) && OverflowIsNext(Run(es[..k]), p, id)
    ensures id in Px(Run(es), p).sess && Px(Run(es), p).sess[id].done && !Has(Px(Run(es), p).sent, id, CMD_CLOSE)
  {
    var s := Run(es[..k]);
    RunKeeps(es[..k]);
    SentOnlyIfDone(es[..k], p, id);
    assert P.Inv(Px(s, p), id);
    LastEvent(es, k);
    ProxyMoves(s, es[k], p);
    PE.OverflowCloses(Px(s, p), At(s.broker.toProxy, p)[|Px(s, p).recv|], id);
    QuietStays(es, k + 1, p, id);
  }

  // ---- what the worker does ----------------------------------------------------------------------

  lemma {:induction false} ConnectionsAreReleased(es: seq<Event>, w: nat, id: Id)
    ensures WE.Released(Wk(Run(es), w), id)
  {
    if es != [] {
      var n := |es| - 1;
      var s := Run(es[..n]);
      ConnectionsAreReleased(es[..n], w, id);
      RunKeeps(es[..n]);
      WorkerMoves(s, es[n], w);
      assert W.Inv(Wk(s, w), id);
      var we := WorkerEvent(s, es[n], w);
      if we.Some? { WE.EventReleases(Wk(s, w), we.value, id); }
    }
  }

  /** In every run, when the broker has received a close of a session from its worker, the connection that the
      worker had dialled for it is released and its socket closed. */
  lemma ClosedMeansReleased(es: seq<Event>, w: nat, id: Id)
    requires Has(At(Run(es).broker.fromWorker, w), id, CMD_CLOSE)
    ensures var y := Wk(Run(es), w);
            id in y.sess && !y.sess[id].life.listed && !y.sess[id].life.conn && !y.sess[id].life.sock
  {
    var s := Run(es);
    RunKeeps(es);
    ConnectionsAreReleased(es, w, id);
    HasInPrefix(At(s.broker.fromWorker, w), Wk(s, w).sent, id, CMD_CLOSE);
    var m :| m in Wk(s, w).sent && Carries(m, id, CMD_CLOSE);
    assert IsFor(m, id);
    WorkerFrameMeansBound(s, w, id);
  }

  /** In every run, a connect frame that a worker received has its open under way or its session stored, for the
      target and over the transport that the frame names. */
  lemma ConnectIsTaken(es: seq<Event>, w: nat, id: Id, m: Wire)
    requires m in Wk(Run(es), w).recv && IsConnect(m, id)
    ensures var y, udp := Wk(Run(es), w), CmdOf(m) == CMD_UDP_CONNECT;
            || (id, PayloadOf(m), udp) in y.opens
            || (id in y.sess && y.sess[id].target == PayloadOf(m) && y.sess[id].udp == udp)
  {
    var s := Run(es);
    RunKeeps(es);
    ConnectionsAreReleased(es, w, id);
    if id in Wk(s, w).sess {
      WorkerFrameMeansBound(s, w, id);
      MemberOfPrefix(Wk(s, w).recv, At(s.broker.toWorker, w), m);
      assert B.Inv(s.broker, id) && B.Handshake(s.broker, id);
    }
  }

  /** The message that worker link `w` handles next is a close of session `id`, and its reader is free. */
  ghost predicate CloseIsNext(s: State, w: nat, id: Id) {
    var queue, n := At(s.broker.toWorker, w), |Wk(s, w).recv|;
    n < |queue| && Carries(queue[n], id, CMD_CLOSE) && !W.IsBusy(Wk(s, w))
  }

  /** After any run, a close that the broker sent ends the session at the worker if and only if the worker has stored
      the session by then; if it is listed its `done` is closed. */
  lemma CloseTakesEffectIff(es: seq<Event>, w: nat, choice: W.Choice, id: Id)
    requires CloseIsNext(Run(es), w, id)
    ensures var y, z := Wk(Run(es), w), Wk(Next(Run(es), WorkerReceives(w, choice)), w);
            && (WE.IsEnding(z, id) <==> id in y.sess)
            && (id in y.sess && y.sess[id].life.listed ==> z.sess[id].life.closed)
  {
    var s := Run(es);
    RunKeeps(es);
    WorkerMoves(s, WorkerReceives(w, choice), w);
    assert W.Inv(Wk(s, w), id);
    WE.CloseTakesEffectIff(Wk(s, w), At(s.broker.toWorker, w)[|Wk(s, w).recv|], choice, id);
  }

  /** A session that the worker had stored when the close came is closed for the rest of the run. */
  lemma CloseEndsTarget(es: seq<Event>, k: nat, w: nat, id: Id)
    requires k < |es| && es[k].WorkerReceives? && es[k].w == w
    requires CloseIsNext(Run(es[..k]), w, id) && id in Wk(Run(es[..k]), w).sess
    ensures WE.IsEnding(Wk(Run(es), w), id)
  {
    CloseTakesEffectIff(es[..k], w, es[k].choice, id);
    LastEvent(es, k);
    EndingStays(es, k + 1, w, id);
  }

  lemma {:induction false} EndingStays(es: seq<Event>, k: nat, w: nat, id: Id)
    requires k <= |es| && WE.IsEnding(Wk(Run(es[..k]), w), id)
    ensures WE.IsEnding(Wk(Run(es), w), id)
  {
    if k == |es| {
      assert es[..k] == es;
    } else {
      var n := |es| - 1;
      assert es[..n][..k] == es[..k];
      EndingStays(es[..n], k, w, id);
      var s := Run(es[..n]);
      WorkerMoves(s, es[n], w);
      var we := WorkerEvent(s, es[n], w);
      if we.Some? { WE.EndingStays(Wk(s, w), we.value, id); }
    }
  }

  /** What a worker link has sent stays sent. */
  lemma {:induction false} SentStays(es: seq<Event>, k: nat, w: nat)
    requires k <= |es|
    ensures Wk(Run(es[..k]), w).sent <= Wk(Run(es), w).sent
  {
    if k == |es| {
      assert es[..k] == es;
    } else {
      var n := |es| - 1;
      assert es[..n][..k] == es[..k];
      SentStays(es[..n], k, w);
      var s := Run(es[..n]);
      WorkerMoves(s, es[n], w);
      var we := WorkerEvent(s, es[n], w);
      if we.Some? { WorkerLogs(Wk(s, w), we.value); }
    }
  }

  /** In every run, a dial that failed was reported to the broker with a close, if its send was taken. */
  lemma FailedDialIsReported(es: seq<Event>, k: nat, w: nat, id: Id)
    requires k < |es| && es[k] == WorkerStep(w, W.DialFail(id, true))
    requires id in Wk(Run(es[..k]), w).sess && Wk(Run(es[..k]), w).sess[id].life.phase == W.Dialing
    ensures Has(Wk(Run(es), w).sent, id, CMD_CLOSE)
  {
    var s := Run(es[..k]);
    RunKeeps(es[..k]);
    WorkerFrameMeansBound(s, w, id);
    assert B.Inv(s.broker, id);
    LastEvent(es, k);
    WorkerMoves(s, es[k], w);
    WE.FailedDialIsQueued(Wk(s, w), id);
    SentStays(es, k + 1, w);
    HasInPrefix(Wk(Run(es[..k + 1]), w).sent, Wk(Run(es), w).sent, id, CMD_CLOSE);
  }

  lemma {:induction false} StopsAreCloses(es: seq<Event>, w: nat, id: Id)
    ensures WE.StoppedIsClosing(Wk(Run(es), w), id)
  {
    if es != [] {
      var n := |es| - 1;
      var s := Run(es[..n]);
      StopsAreCloses(es[..n], w, id);
      RunKeeps(es[..n]);
      WorkerMoves(s, es[n], w);
      assert W.Inv(Wk(s, w), id);
      var we := WorkerEvent(s, es[n], w);
      if we.Some? { WE.EventStops(Wk(s, w), we.value, id); }
    }
  }

  /** In every run, a session of a worker whose reader has stopped, whose writer has stopped, whose queue overflowed or
      whose confirmation could not be sent is closing, or the link is. */
  lemma StoppedMeansClosing(es: seq<Event>, w: nat, id: Id)
    requires id in Wk(Run(es), w).sess
    ensures var y := Wk(Run(es), w);
            var x := y.sess[id];
            && (x.life.hadConn && !x.outward.on ==> x.life.closed)
            && (x.life.hadConn && !x.inward.on ==> x.life.closed || y.done)
            && (x.inward.cut ==> x.life.closed)
            && (x.outward.announced ==> x.life.closed || Has(y.sent, id, CMD_CONNECTED))
  {
    StopsAreCloses(es, w, id);
  }

  /** The continuation of a run in which worker link `w` completes the close of a session. */
  ghost function Completed(es: seq<Event>, w: nat, id: Id): (r: seq<Event>)
    ensures es <= r
  {
    var steps := WE.Closing(id);
    es + [WorkerStep(w, steps[0])] + [WorkerStep(w, steps[1])] + [WorkerStep(w, steps[2])] + [WorkerStep(w, steps[3])]
  }

  lemma StepRun(es: seq<Event>, w: nat, e: W.Event)
    requires !e.Receive?
    ensures Wk(Run(es + [WorkerStep(w, e)]), w) == W.Next(Wk(Run(es), w), e)
  {
    assert (es + [WorkerStep(w, e)])[..|es|] == es;
    WorkerMoves(Run(es), WorkerStep(w, e), w);
  }

  /** After any run, the close of a session that has begun can be completed: the connection is released, its socket
      closed, the session unlisted and the broker told. */
  lemma CloseCanComplete(es: seq<Event>, w: nat, id: Id)
    requires id in Wk(Run(es), w).sess && Wk(Run(es), w).sess[id].life.closed
    ensures var y := Wk(Run(Completed(es, w, id)), w);
            && id in y.sess && !y.sess[id].life.listed && !y.sess[id].life.conn && !y.sess[id].life.sock
            && Has(y.sent, id, CMD_CLOSE)
  {
    var steps := WE.Closing(id);
    var es1 := es + [WorkerStep(w, steps[0])];
    var es2 := es1 + [WorkerStep(w, steps[1])];
    StepRun(es, w, steps[0]);
    StepRun(es1, w, steps[1]);
    StepRun(es2, w, steps[2]);
    StepRun(es2 + [WorkerStep(w, steps[2])], w, steps[3]);
    RunKeeps(es);
    WorkerFrameMeansBound(Run(es), w, id);
    assert B.Inv(Run(es).broker, id) && W.Inv(Wk(Run(es), w), id);
    WE.CloseCompletes(Wk(Run(es), w), id);
  }

  // ---- datagrams ---------------------------------------------------------------------------------

  /** The reads from the target of a session, one by one: by what each event of the run let them grow. */
  ghost function Datagrams(es: seq<Event>, w: nat, id: Id): seq<Bytes> {
    if es == [] then [] else
      var front := es[..|es| - 1];
      Datagrams(front, w, id) + WE.Grown(WE.FromTarget(Wk(Run(front), w), id), WE.FromTarget(Wk(Run(es), w), id))
  }

  lemma {:induction false} StayWhole(es: seq<Event>, w: nat, id: Id)
    ensures WE.WholeIn(Wk(Run(es), w), id, Datagrams(es, w, id))
  {
    if es != [] {
      var n := |es| - 1;
      StayWhole(es[..n], w, id);
      RunKeeps(es[..n]);
      StepWhole(Run(es[..n]), es[n], w, id, Datagrams(es[..n], w, id));
    }
  }

  lemma StepWhole(s: State, e: Event, w: nat, id: Id, datagrams: seq<Bytes>)
    requires Inv(s) && WE.WholeIn(Wk(s, w), id, datagrams)
    ensures WE.WholeIn(Wk(Next(s, e), w), id,
                       datagrams + WE.Grown(WE.FromTarget(Wk(s, w), id), WE.FromTarget(Wk(Next(s, e), w), id)))
  {
    WorkerMoves(s, e, w);
    assert W.Inv(Wk(s, w), id);
    var we := WorkerEvent(s, e, w);
    if we.Some? {
      WE.EventStaysWhole(Wk(s, w), we.value, id, datagrams);
    } else {
      assert datagrams + [] == datagrams;
    }
  }

  /** In every run, the data frames that a worker queued for a UDP session are the datagrams it read from the target,
      one frame for one datagram, in order; at most the last one read is still pending. */
  lemma DatagramsStayWhole(es: seq<Event>, w: nat, id: Id)
    requires id in Wk(Run(es), w).sess && Wk(Run(es), w).sess[id].udp
    ensures var y, all := Wk(Run(es), w), Datagrams(es, w, id);
            && Payloads(y.sent, id) <= all
            && (y.sess[id].outward.on ==> |all| <= |Payloads(y.sent, id)| + 1)
  {
    StayWhole(es, w, id);
  }

  // ---- opened as asked ---------------------------------------------------------------------------

  /** Event `k` of the run opens the session: a client of proxy connection `p` asks for it. */
  ghost predicate OpensAt(es: seq<Event>, k: nat, id: Id) {
    k < |es| && es[k].ProxyStep? && es[k].pe.Open? && es[k].pe.id == id && id !in Run(es[..k]).used
  }

  /** The request that an open puts into words. */
  function Asked(o: P.Event): Request
    requires o.Open?
  {
    Request(o.id, o.route, o.target, if o.mode == "" then "tcp" else o.mode)
  }

  /** Any request for the session is the one of that open. */
  ghost predicate OnlyAsks(s: State, id: Id, p: nat, req: Request) {
    id in s.used && s.used[id] == p && forall m :: m in Px(s, p).sent && m.Text? && m.req.id == id ==> m.req == req
  }

  lemma OpenAsks(s: State, p: nat, o: P.Event)
    requires Inv(s) && o.Open? && o.id !in s.used
    ensures OnlyAsks(Next(s, ProxyStep(p, o)), o.id, p, Asked(o))
  {
    forall m | m in Px(s, p).sent && m.Text? ensures m.req.id != o.id { }
    ProxyMoves(s, ProxyStep(p, o), p);
  }

  lemma AsksStay(s: State, e: Event, id: Id, p: nat, req: Request)
    requires Inv(s) && OnlyAsks(s, id, p, req)
    ensures OnlyAsks(Next(s, e), id, p, req)
  {
    var pe := ProxyEvent(s, e, p);
    ProxyMoves(s, e, p);
    if pe.Some? {
      if pe.value.Receive? { ProxyReceiveLogs(Px(s, p), pe.value.m); } else { ProxyLogs(Px(s, p), pe.value); }
    }
  }

  lemma {:induction false} RequestIsAsOpened(es: seq<Event>, k: nat, id: Id)
    requires OpensAt(es, k, id)
    ensures OnlyAsks(Run(es), id, es[k].p, Asked(es[k].pe))
  {
    var n := |es| - 1;
    RunKeeps(es[..n]);
    if k == n {
      OpenAsks(Run(es[..n]), es[n].p, es[n].pe);
    } else {
      assert es[..n][..k] == es[..k];
      RequestIsAsOpened(es[..n], k, id);
      AsksStay(Run(es[..n]), es[n], id, es[k].p, Asked(es[k].pe));
    }
  }

  /** In every run, the request of an open with a known mode and a good id has been sent, for the route, the target and
      the mode that the client asked for, unless the connection was closed and the send refused; any other request
      for the id would be the same. */
  lemma RequestIsSent(es: seq<Event>, k: nat, id: Id)
    requires OpensAt(es, k, id) && es[k].pe.mode in {"", "tcp", "udp"} && |id| == ID_LEN
    ensures var o, p := es[k].pe, es[k].p;
            var mode := if o.mode == "" then "tcp" else o.mode;
            && (|| Text(Request(id, o.route, o.target, mode)) in Px(Run(es), p).sent
                || (Px(Run(es[..k]), p).done && !o.sendOk))
            && forall m :: m in Px(Run(es), p).sent && m.Text? && m.req.id == id ==>
                 m.req == Request(id, o.route, o.target, mode)
  {
    var s, p := Run(es[..k]), es[k].p;
    RequestIsAsOpened(es, k, id);
    RunKeeps(es[..k]);
    LastEvent(es, k);
    ProxyMoves(s, es[k], p);
    SessionsAreUsed(es[..k], p, id);
    if !(Px(s, p).done && !es[k].pe.sendOk) {
      assert Text(Asked(es[k].pe)) in Px(Run(es[..k + 1]), p).sent;
      ProxySentStays(es, k + 1, p);
      MemberOfPrefix(Px(Run(es[..k + 1]), p).sent, Px(Run(es), p).sent, Text(Asked(es[k].pe)));
    }
  }

  lemma OnlyOpenAdds(x: P.State, e: P.Event)
    ensures P.Next(x, e).sess.Keys <= x.sess.Keys + (if e.Open? then {e.id} else {})
  {
  }

  lemma {:induction false} SessionsAreUsed(es: seq<Event>, p: nat, id: Id)
    ensures id in Px(Run(es), p).sess ==> id in Run(es).used
  {
    if es != [] {
      var n := |es| - 1;
      var s := Run(es[..n]);
      SessionsAreUsed(es[..n], p, id);
      ProxyMoves(s, es[n], p);
      var pe := ProxyEvent(s, es[n], p);
      if pe.Some? { OnlyOpenAdds(Px(s, p), pe.value); }
    }
  }

  lemma {:induction false} ProxySentStays(es: seq<Event>, k: nat, p: nat)
    requires k <= |es|
    ensures Px(Run(es[..k]), p).sent <= Px(Run(es), p).sent
  {
    if k == |es| {
      assert es[..k] == es;
    } else {
      var n := |es| - 1;
      assert es[..n][..k] == es[..k];
      ProxySentStays(es[..n], k, p);
      ProxySentGrows(Run(es[..n]), es[n], p);
    }
  }

  /** What the broker handled of a proxy, that proxy has sent. */
  lemma {:induction false} HandledWasSent(es: seq<Event>, j: nat)
    requires j < |BrokerEvents(es)| && BrokerEvents(es)[j].ProxyMessage?
    ensures BrokerEvents(es)[j].uuid == []
    ensures BrokerEvents(es)[j].m in Px(Run(es), BrokerEvents(es)[j].p).sent
  {
    var n := |es| - 1;
    var s, p, front := Run(es[..n]), BrokerEvents(es)[j].p, BrokerEvents(es[..n]);
    if j < |front| {
      HandledWasSent(es[..n], j);
      ProxySentGrows(s, es[n], p);
      MemberOfPrefix(Px(s, p).sent, Px(Run(es), p).sent, BrokerEvents(es)[j].m);
    } else {
      ProxySentGrows(s, es[n], p);
    }
  }

  lemma ProxySentGrows(s: State, e: Event, p: nat)
    ensures Px(s, p).sent <= Px(Next(s, e), p).sent
  {
    var pe := ProxyEvent(s, e, p);
    ProxyMoves(s, e, p);
    if pe.Some? {
      if pe.value.Receive? { ProxyReceiveLogs(Px(s, p), pe.value.m); } else { ProxyLogs(Px(s, p), pe.value); }
    }
  }

  /** When the broker's event `j` stored the session, its worker was listed in the group. */
  ghost predicate PickedFrom(es: seq<Event>, j: nat, id: Id, group: string, w: nat) {
    && BP.BoundAt(BrokerEvents(es), j, id)
    && var reg := BP.Run(BrokerEvents(es)[..j]).reg; group in reg.groups && w in reg.groups[group].workers
  }

  /** In every run, a session that was stored is bound to the proxy connection whose client asked for it and to a
      worker that was listed, when it was stored, in the group that the client's route names; and what the worker
      holds of it has the target and the transport that the client asked for. */
  lemma OpenedAsAsked(es: seq<Event>, k: nat, id: Id)
    requires OpensAt(es, k, id) && id in Run(es).broker.past.stored
    ensures var s, o := Run(es), es[k].pe;
            var x := s.broker.past.stored[id];
            && x.proxy == es[k].p
            && (exists j: nat :: PickedFrom(es, j, id, o.route, x.worker))
            && (id in Wk(s, x.worker).sess ==>
                  && Wk(s, x.worker).sess[id].target == o.target
                  && (Wk(s, x.worker).sess[id].udp <==> o.mode == "udp"))
  {
    var s, o := Run(es), es[k].pe;
    var x := s.broker.past.stored[id];
    var j := StoredFor(es, k, id);
    RunKeeps(es);
    if id in Wk(s, x.worker).sess { WorkerFrameMeansBound(s, x.worker, id); }
  }

  /** The event of the broker that stored the session, and what it recorded. */
  lemma StoredFor(es: seq<Event>, k: nat, id: Id) returns (j: nat)
    requires OpensAt(es, k, id) && id in Run(es).broker.past.stored
    ensures var b, o := Run(es).broker, es[k].pe;
            && b.past.stored[id].proxy == es[k].p && PickedFrom(es, j, id, o.route, b.past.stored[id].worker)
            && id in b.past.target && b.past.target[id] == o.target
            && (b.past.stored[id].mode == "udp" <==> o.mode == "udp")
  {
    var be := BrokerEvents(es);
    BrokerPart(es);
    j := BP.StoredByAnEvent(be, id);
    BA.StoredByItsRequest(be, j, id);
    HandledWasSent(es, j);
    RequestIsAsOpened(es, k, id);
    RunKeeps(es);
    assert be[j].m.req.id == id;
    BA.StoredIffGrantable(be, j, id);
  }

  /** In every run, a session of a worker and the session of the proxy connection it is bound to have the same target
      and the same transport, which are those of the request that the connection sent. */
  lemma EndsAgree(es: seq<Event>, w: nat, id: Id)
    requires id in Wk(Run(es), w).sess
    ensures var s := Run(es);
            var p := ClientOf(s, id);
            && id in Px(s, p).sess && Px(s, p).sess[id].target == Wk(s, w).sess[id].target
            && Px(s, p).sess[id].udp == Wk(s, w).sess[id].udp
            && exists m :: m in Px(s, p).sent && m.Text? && m.req.id == id && m.req.target == Wk(s, w).sess[id].target
                           && (m.req.mode == "udp" <==> Wk(s, w).sess[id].udp)
  {
    var s := Run(es);
    RunKeeps(es);
    SessionWasAsked(s, w, id);
    WorkerFrameMeansBound(s, w, id);
    var b, p := s.broker, ClientOf(s, id);
    assert B.Inv(b, id) && B.Handshake(b, id);
    var ask :| ask in At(b.fromProxy, p) && B.AsksFor(ask, id, b.past.target[id], b.past.stored[id].mode == "udp");
    MemberOfPrefix(At(b.fromProxy, p), Px(s, p).sent, ask);
    assert P.DistinctRequests(Px(s, p).sent);
    assert |ask.req.id| == ID_LEN;
    assert P.Inv(Px(s, p), id);
  }
}
